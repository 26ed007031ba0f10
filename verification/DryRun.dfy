/** The dry-run executor of tool proposals (core/pkg/approval/dryrun.go, core/pkg/approval/events.go). */
module DryRun {
  import opened Options
  import opened Messages

  const MAX_TOOL_NAME_LENGTH := 64
  const MAX_BROKER_OP_LENGTH := 64
  const MAX_BROKER_ARG_COUNT := 16
  const MAX_BROKER_ARG_KEY_LENGTH := 64
  const MAX_BROKER_ARG_VALUE_LENGTH := 1024
  const MAX_INVOCATIONS_PER_REQUEST := 32

  /** String types in the program; `Other` is any value outside the closed set. */
  datatype BrokerKind = Slack | Jira | OtherKind(text: string)

  datatype Mode = Ghost | Scoped | NoneMode | OtherMode(text: string)

  datatype Invocation = Invocation(kind: BrokerKind, op: string, args: map<string, string>)

  datatype Scope = Scope(leadDMChannel: string, jiraSandboxProject: string)

  datatype Disposition = Ghosted | DispositionScoped

  datatype Outcome = Outcome(original: Invocation, effective: Invocation, disposition: Disposition, forwardErr: Option<string>)

  datatype Request = Request(proposal: ProposalId, toolName: string, mode: Mode, invocations: seq<Invocation>)

  datatype Error =
    | ErrInvalidDryRunRequest
    | ErrInvalidDryRunMode
    | ErrInvocationsExceedLimit
    | ErrInvalidBrokerKind
    | ErrInvalidBrokerInvocation
    | ErrInvalidBrokerArgs
    | ErrContext
    | ErrPreApprovalWarning
    | ErrScopeResolution
    | ErrEmptyResolvedScope
    | ErrInvalidScope
    | ErrBrokerForward(index: nat, cause: string)
    | ErrPublishDryRunExecuted
    | Joined(first: Error, second: Error)

  datatype Trace = Trace(proposal: ProposalId, toolName: string, mode: Mode, outcomes: seq<Outcome>)

  /** The metadata-only event: how many invocations of each kind. */
  datatype Executed = Executed(proposal: ProposalId, toolName: string, mode: Mode, counts: map<BrokerKind, nat>, invocationCount: nat)

  // ---------------------------------------------------------------- validation

  /** unicode.IsSpace */
  predicate IsSpace(c: char) {
    c == ' ' || '\t' <= c <= '\r' || c == '\U{85}' || c == '\U{A0}' || c == '\U{1680}' || '\U{2000}' <= c <= '\U{200A}'
    || c == '\U{2028}' || c == '\U{2029}' || c == '\U{202F}' || c == '\U{205F}' || c == '\U{3000}'
  }

  /** strings.TrimSpace(s) == "" */
  predicate Blank(s: string) {
    forall i :: 0 <= i < |s| ==> IsSpace(s[i])
  }

  /** The length in bytes of the UTF-8 form, which is what len measures. */
  function Bytes(s: string): nat {
    if s == "" then 0 else RuneBytes(s[0]) + Bytes(s[1..])
  }

  function RuneBytes(c: char): nat {
    if c < '\U{80}' then 1 else if c < '\U{800}' then 2 else if c < '\U{10000}' then 3 else 4
  }

  /** The first failing argument decides nothing but the text of the error: both failures are the same sentinel. */
  predicate ArgsFit(args: map<string, string>) {
    forall k :: k in args ==> Bytes(k) <= MAX_BROKER_ARG_KEY_LENGTH && Bytes(args[k]) <= MAX_BROKER_ARG_VALUE_LENGTH
  }

  function CheckInvocation(inv: Invocation): Option<Error> {
    if inv.kind.OtherKind? then Some(ErrInvalidBrokerKind)
    else if Blank(inv.op) then Some(ErrInvalidBrokerInvocation)
    else if Bytes(inv.op) > MAX_BROKER_OP_LENGTH then Some(ErrInvalidBrokerInvocation)
    else if |inv.args| > MAX_BROKER_ARG_COUNT then Some(ErrInvalidBrokerArgs)
    else if !ArgsFit(inv.args) then Some(ErrInvalidBrokerArgs)
    else None
  }

  /** The error of the first invalid invocation. */
  function CheckInvocations(invs: seq<Invocation>): Option<Error> {
    if invs == [] then None
    else
      var first := CheckInvocations(invs[..|invs| - 1]);
      if first.Some? then first else CheckInvocation(invs[|invs| - 1])
  }

  function CheckRequest(req: Request): Option<Error> {
    if req.proposal == 0 then Some(ErrInvalidDryRunRequest)
    else if Blank(req.toolName) then Some(ErrInvalidDryRunRequest)
    else if Bytes(req.toolName) > MAX_TOOL_NAME_LENGTH then Some(ErrInvalidDryRunRequest)
    else if req.mode.OtherMode? then Some(ErrInvalidDryRunMode)
    else if |req.invocations| > MAX_INVOCATIONS_PER_REQUEST then Some(ErrInvocationsExceedLimit)
    else CheckInvocations(req.invocations)
  }

  function CheckScope(scope: Scope): Option<Error> {
    if scope == Scope("", "") then Some(ErrEmptyResolvedScope)
    else if Blank(scope.leadDMChannel) then Some(ErrInvalidScope)
    else if Blank(scope.jiraSandboxProject) then Some(ErrInvalidScope)
    else None
  }

  lemma {:induction false} ValidInvocations(invs: seq<Invocation>, i: nat)
    requires CheckInvocations(invs) == None && i < |invs|
    ensures CheckInvocation(invs[i]) == None
  {
    var n := |invs| - 1;
    if i < n {
      ValidInvocations(invs[..n], i);
      assert invs[..n][i] == invs[i];
    }
  }

  // ---------------------------------------------------------------- rewriting

  /** The argument that a scope forces for a broker kind. */
  function ForcedKey(kind: BrokerKind): Option<string> {
    match kind
    case Slack => Some("channel")
    case Jira => Some("project")
    case OtherKind(_) => None
  }

  function ForcedValue(kind: BrokerKind, scope: Scope): string {
    if kind == Slack then scope.leadDMChannel else scope.jiraSandboxProject
  }

  function ForcedArgs(inv: Invocation, scope: Scope): map<string, string> {
    match ForcedKey(inv.kind)
    case Some(key) => inv.args[key := ForcedValue(inv.kind, scope)]
    case None => inv.args
  }

  function Rewrite(inv: Invocation, scope: Scope): Option<Invocation> {
    if |ForcedArgs(inv, scope)| > MAX_BROKER_ARG_COUNT then None
    else Some(inv.(args := ForcedArgs(inv, scope)))
  }

  /** A rewrite forces the channel or the project, changes nothing else, and stays within the limit; a valid
      invocation can be rewritten unless it already has 16 arguments and none of them is the forced one. */
  lemma RewriteForcesScope(inv: Invocation, scope: Scope)
    requires CheckInvocation(inv) == None
    ensures ForcedKey(inv.kind).Some?
    ensures Rewrite(inv, scope) == None <==> |inv.args| == MAX_BROKER_ARG_COUNT && ForcedKey(inv.kind).value !in inv.args
    ensures Rewrite(inv, scope).Some? ==>
      var key, w := ForcedKey(inv.kind).value, Rewrite(inv, scope).value;
      && w.kind == inv.kind && w.op == inv.op && |w.args| <= MAX_BROKER_ARG_COUNT
      && key in w.args && w.args[key] == (if inv.kind == Slack then scope.leadDMChannel else scope.jiraSandboxProject)
      && (forall k :: k != key ==> (k in w.args <==> k in inv.args) && (k in inv.args ==> w.args[k] == inv.args[k]))
  {
    var key := ForcedKey(inv.kind).value;
    var forced := ForcedArgs(inv, scope);
    if key in inv.args {
      assert forced.Keys == inv.args.Keys;
    } else {
      assert forced.Keys == inv.args.Keys + {key};
    }
    assert |forced| == |forced.Keys| && |inv.args| == |inv.args.Keys|;
  }

  // ---------------------------------------------------------------- how a scoped run ends

  /** What the surroundings of one Execute call do: the answers of ctx.Err in the order it is asked, of Forward in the
      order it is called (None is nil), of the scope resolver, and of Publish.  Nothing is assumed about them. */
  datatype World = World(
    cancelled: nat -> bool, forwarder: bool, forward: nat -> Option<string>, resolved: Option<Scope>, publishes: bool)

  datatype Stop = Completed | CancelledAt(i: nat) | OverflowAt(i: nat) | FailedAt(i: nat, cause: string)

  /** Invocation `i` is reached with `i` forwards done and `1 + i` answers of ctx.Err given. */
  function StopOf(w: World, invs: seq<Invocation>, scope: Scope, i: nat): Stop
    requires i <= |invs|
    decreases |invs| - i
  {
    if i == |invs| then Completed
    else if CancelledBefore(w, i) then CancelledAt(i)
    else if Rewrite(invs[i], scope).None? then OverflowAt(i)
    else if w.forwarder && w.forward(i).Some? then FailedAt(i, w.forward(i).value)
    else StopOf(w, invs, scope, i + 1)
  }

  /** ctx.Err, asked before invocation `i`, or after the last one. */
  predicate CancelledBefore(w: World, i: nat) { w.cancelled(1 + i) }

  function Position(stop: Stop, n: nat): nat {
    if stop.Completed? then n else stop.i
  }

  /** Nothing that stops a run happens before its stop, and what it names happens there. */
  lemma {:induction false} StopIsFirst(w: World, invs: seq<Invocation>, scope: Scope, i: nat)
    requires i <= |invs|
    ensures var stop := StopOf(w, invs, scope, i); var k := Position(stop, |invs|);
      && i <= k <= |invs|
      && (!stop.Completed? ==> k < |invs|)
      && (forall j :: i <= j < k ==> Passes(w, invs, scope, j))
      && (stop.CancelledAt? ==> CancelledBefore(w, k))
      && (stop.OverflowAt? ==> !CancelledBefore(w, k) && Rewrite(invs[k], scope).None?)
      && (stop.FailedAt? ==>
            !CancelledBefore(w, k) && Rewrite(invs[k], scope).Some? && w.forwarder && w.forward(k) == Some(stop.cause))
    decreases |invs| - i
  {
    if i < |invs| && Passes(w, invs, scope, i) {
      StopIsFirst(w, invs, scope, i + 1);
    }
  }

  /** How many invocations end up in the trace: a failed forward is one of them. */
  function Recorded(stop: Stop, n: nat): nat {
    if stop.FailedAt? then stop.i + 1 else Position(stop, n)
  }

  function CauseOf(stop: Stop): Option<string> {
    if stop.FailedAt? then Some(stop.cause) else None
  }

  lemma RecordedRewritten(w: World, invs: seq<Invocation>, scope: Scope)
    ensures var m := Recorded(StopOf(w, invs, scope, 0), |invs|);
      m <= |invs| && forall j :: 0 <= j < m ==> Rewrite(invs[j], scope).Some?
  {
    var stop := StopOf(w, invs, scope, 0);
    StopIsFirst(w, invs, scope, 0);
    forall j | 0 <= j < Recorded(stop, |invs|)
      ensures Rewrite(invs[j], scope).Some?
    {
      if j < Position(stop, |invs|) { assert Passes(w, invs, scope, j); }
    }
  }

  predicate Passes(w: World, invs: seq<Invocation>, scope: Scope, j: nat) {
    j < |invs| && !CancelledBefore(w, j) && Rewrite(invs[j], scope).Some? && (w.forwarder ==> w.forward(j).None?)
  }

  /** The rewrites of the first `n` invocations. */
  function Rewrites(invs: seq<Invocation>, scope: Scope, n: nat): (r: seq<Invocation>)
    requires n <= |invs| && forall j :: 0 <= j < n ==> Rewrite(invs[j], scope).Some?
    ensures |r| == n
  {
    seq(n, j requires 0 <= j < n => Rewrite(invs[j], scope).value)
  }

  /** The outcomes of the first `n` invocations; the last one carries the error of a failed forward. */
  function ScopedOutcomes(invs: seq<Invocation>, scope: Scope, n: nat, failure: Option<string>): (r: seq<Outcome>)
    requires n <= |invs| && forall j :: 0 <= j < n ==> Rewrite(invs[j], scope).Some?
    ensures |r| == n
  {
    seq(n, j requires 0 <= j < n =>
      Outcome(invs[j], Rewrite(invs[j], scope).value, DispositionScoped, if j == n - 1 then failure else None))
  }

  function GhostOutcomes(invs: seq<Invocation>): (r: seq<Outcome>)
    ensures |r| == |invs|
  {
    seq(|invs|, j requires 0 <= j < |invs| => Outcome(invs[j], invs[j], Ghosted, None))
  }

  // ---------------------------------------------------------------- the event

  function Kinds(outcomes: seq<Outcome>): (r: seq<BrokerKind>)
    ensures |r| == |outcomes|
  {
    seq(|outcomes|, j requires 0 <= j < |outcomes| => outcomes[j].original.kind)
  }

  /** A Go map that counts has a key only for what it has seen. */
  function CountsOf(kinds: multiset<BrokerKind>): map<BrokerKind, nat> {
    map k | k in kinds :: kinds[k]
  }

  function EventOf(req: Request, outcomes: seq<Outcome>): Executed {
    Executed(req.proposal, req.toolName, req.mode, CountsOf(multiset(Kinds(outcomes))), |outcomes|)
  }

  function TraceOf(req: Request, outcomes: seq<Outcome>): Trace {
    Trace(req.proposal, req.toolName, req.mode, outcomes)
  }

  function CountOf(counts: map<BrokerKind, nat>, kind: BrokerKind): nat {
    if kind in counts then counts[kind] else 0
  }

  /** The per-kind counts of an event of a valid request add up to its invocation count. */
  lemma CountsAddUp(req: Request, outcomes: seq<Outcome>)
    requires forall j :: 0 <= j < |outcomes| ==> !outcomes[j].original.kind.OtherKind?
    ensures var e := EventOf(req, outcomes); CountOf(e.counts, Slack) + CountOf(e.counts, Jira) == e.invocationCount
  {
    TwoKinds(Kinds(outcomes));
  }

  lemma {:induction false} TwoKinds(kinds: seq<BrokerKind>)
    requires forall j :: 0 <= j < |kinds| ==> !kinds[j].OtherKind?
    ensures multiset(kinds)[Slack] + multiset(kinds)[Jira] == |kinds|
  {
    if kinds != [] {
      var n := |kinds| - 1;
      TwoKinds(kinds[..n]);
      assert kinds == kinds[..n] + [kinds[n]];
    }
  }

  // ---------------------------------------------------------------- what Execute does

  /** Everything one Execute call leaves behind: its Forward calls, its Publish attempts, and what it returns; a zero
      Trace is None. */
  datatype Effects = Effects(forwards: seq<Invocation>, published: seq<Executed>, trace: Option<Trace>, error: Option<Error>)

  function Fail(e: Error): Effects { Effects([], [], None, Some(e)) }

  /** The full run reached the end: publish, and return the trace only if that worked. */
  function Publishing(w: World, req: Request, outcomes: seq<Outcome>, forwards: seq<Invocation>): Effects {
    if w.publishes then Effects(forwards, [EventOf(req, outcomes)], Some(TraceOf(req, outcomes)), None)
    else Effects(forwards, [EventOf(req, outcomes)], None, Some(ErrPublishDryRunExecuted))
  }

  /** Real side effects have happened: publish what there is, and return the trace with the cause. */
  function PublishingPartial(w: World, req: Request, outcomes: seq<Outcome>, forwards: seq<Invocation>, cause: Error): Effects {
    Effects(forwards, [EventOf(req, outcomes)], Some(TraceOf(req, outcomes)),
            Some(if w.publishes then cause else Joined(cause, ErrPublishDryRunExecuted)))
  }

  function RunOutcomes(w: World, invs: seq<Invocation>, scope: Scope): (r: seq<Outcome>)
    ensures |r| == Recorded(StopOf(w, invs, scope, 0), |invs|) <= |invs|
    ensures forall j :: 0 <= j < |r| ==> r[j].original == invs[j]
  {
    RecordedRewritten(w, invs, scope);
    var stop := StopOf(w, invs, scope, 0);
    ScopedOutcomes(invs, scope, Recorded(stop, |invs|), CauseOf(stop))
  }

  function RunForwards(w: World, invs: seq<Invocation>, scope: Scope): (r: seq<Invocation>)
    ensures |r| == if w.forwarder then Recorded(StopOf(w, invs, scope, 0), |invs|) else 0
    ensures forall j :: 0 <= j < |r| ==> j < |invs| && Rewrite(invs[j], scope) == Some(r[j])
  {
    RecordedRewritten(w, invs, scope);
    if w.forwarder then Rewrites(invs, scope, Recorded(StopOf(w, invs, scope, 0), |invs|)) else []
  }

  function ScopedSpec(w: World, req: Request, scope: Scope): Effects {
    var invs := req.invocations;
    var stop := StopOf(w, invs, scope, 0);
    var outcomes, forwards := RunOutcomes(w, invs, scope), RunForwards(w, invs, scope);
    var fired := w.forwarder && Position(stop, |invs|) > 0;
    match stop
    case Completed =>
      if !fired && CancelledBefore(w, |invs|) then Fail(ErrContext) else Publishing(w, req, outcomes, forwards)
    case CancelledAt(_) =>
      if fired then PublishingPartial(w, req, outcomes, forwards, ErrContext) else Fail(ErrContext)
    case OverflowAt(_) =>
      if fired then PublishingPartial(w, req, outcomes, forwards, ErrInvalidBrokerArgs) else Fail(ErrInvalidBrokerArgs)
    case FailedAt(i, cause) =>
      if fired then PublishingPartial(w, req, outcomes, forwards, ErrBrokerForward(i, cause))
      else Effects(forwards, [], Some(TraceOf(req, outcomes)), Some(ErrBrokerForward(i, cause)))
  }

  function ExecuteSpec(w: World, req: Request): Effects {
    if CheckRequest(req).Some? then Effects([], [], None, CheckRequest(req))
    else if w.cancelled(0) then Fail(ErrContext)
    else
      match req.mode
      case NoneMode => Fail(ErrPreApprovalWarning)
      case Ghost =>
        if w.cancelled(1) then Fail(ErrContext) else Publishing(w, req, GhostOutcomes(req.invocations), [])
      case Scoped =>
        if w.resolved.None? then Fail(ErrScopeResolution)
        else if CheckScope(w.resolved.value).Some? then Effects([], [], None, CheckScope(w.resolved.value))
        else ScopedSpec(w, req, w.resolved.value)
      case OtherMode(_) => Fail(ErrInvalidDryRunMode)
  }

  // ---------------------------------------------------------------- what the effects guarantee

  /** How many of the Forward calls succeeded. */
  function Succeeded(w: World, e: Effects): nat {
    if e.forwards != [] && w.forward(|e.forwards| - 1).Some? then |e.forwards| - 1 else |e.forwards|
  }

  predicate ForwardFailed(w: World, e: Effects) {
    e.forwards != [] && w.forward(|e.forwards| - 1).Some?
  }

  /** A run that got past its checks and the scope, with what its invocations were rewritten by. */
  predicate ScopedRun(w: World, req: Request) {
    CheckRequest(req).None? && !w.cancelled(0) && req.mode == Scoped && w.resolved.Some? && CheckScope(w.resolved.value).None?
  }

  /** The Forward calls are, in order, the rewrites of a prefix of the request.  Each was made only after every earlier
      one had succeeded and right after ctx.Err said that the caller was still there. */
  lemma ForwardsAreARewrittenPrefix(w: World, req: Request, j: nat)
    requires j < |ExecuteSpec(w, req).forwards|
    ensures w.forwarder && ScopedRun(w, req)
    ensures j < |req.invocations| && Rewrite(req.invocations[j], w.resolved.value) == Some(ExecuteSpec(w, req).forwards[j])
    ensures !w.cancelled(0) && forall i :: 0 <= i <= j ==> !CancelledBefore(w, i)
    ensures forall i :: 0 <= i < j ==> w.forward(i).None?
  {
    ScopedForwards(w, req);
    ReachedWithoutFailure(w, req.invocations, w.resolved.value, j);
  }

  /** The calls before one that is made were not cancelled and did not fail. */
  lemma ReachedWithoutFailure(w: World, invs: seq<Invocation>, scope: Scope, j: nat)
    requires w.forwarder && j < Recorded(StopOf(w, invs, scope, 0), |invs|)
    ensures forall i :: 0 <= i <= j ==> !CancelledBefore(w, i)
    ensures forall i :: 0 <= i < j ==> w.forward(i).None?
  {
    StopIsFirst(w, invs, scope, 0);
    forall i | 0 <= i < Position(StopOf(w, invs, scope, 0), |invs|)
      ensures !CancelledBefore(w, i) && w.forward(i).None?
    {
      assert Passes(w, invs, scope, i);
    }
  }

  lemma ScopedForwards(w: World, req: Request)
    requires ExecuteSpec(w, req).forwards != []
    ensures ScopedRun(w, req) && ExecuteSpec(w, req).forwards == RunForwards(w, req.invocations, w.resolved.value)
    ensures w.forwarder
  {
    if ScopedRun(w, req) { ForwardsOfRun(w, req); }
  }

  /** Ghost and none modes never call the forwarder. */
  lemma OnlyScopedForwards(w: World, req: Request)
    requires req.mode != Scoped
    ensures ExecuteSpec(w, req).forwards == []
  {
  }

  /** The run came to the end of its list and found the caller still there at its last check. */
  predicate RanToTheEnd(w: World, req: Request) {
    && CheckRequest(req).None? && !w.cancelled(0)
    && ((req.mode == Ghost && !w.cancelled(1))
        || (ScopedRun(w, req)
            && StopOf(w, req.invocations, w.resolved.value, 0) == Completed
            && !CancelledBefore(w, |req.invocations|)))
  }

  /** Execute attempts exactly one publish when at least one Forward succeeded, or when the run completed with its
      last check uncancelled, and none otherwise. */
  lemma PublishesOnceIff(w: World, req: Request)
    ensures var e := ExecuteSpec(w, req);
      |e.published| == if Succeeded(w, e) > 0 || RanToTheEnd(w, req) then 1 else 0
  {
    if ScopedRun(w, req) {
      ScopedShape(w, req);
    }
  }

  /** The stop of a scoped run, read off its Forward calls. */
  ghost predicate Shape(w: World, stop: Stop, n: nat, e: Effects) {
    && |e.forwards| == (if w.forwarder then Recorded(stop, n) else 0)
    && Succeeded(w, e) == (if w.forwarder then Position(stop, n) else 0)
    && (ForwardFailed(w, e) <==> stop.FailedAt?)
  }

  lemma ScopedShape(w: World, req: Request)
    requires ScopedRun(w, req)
    ensures Shape(w, StopOf(w, req.invocations, w.resolved.value, 0), |req.invocations|, ExecuteSpec(w, req))
  {
    ForwardsOfRun(w, req);
    ForwardsShape(w, req.invocations, w.resolved.value, ExecuteSpec(w, req));
  }

  lemma ForwardsShape(w: World, invs: seq<Invocation>, scope: Scope, e: Effects)
    requires e.forwards == RunForwards(w, invs, scope)
    ensures Shape(w, StopOf(w, invs, scope, 0), |invs|, e)
  {
    LastForward(w, invs, scope);
  }

  lemma ForwardsOfRun(w: World, req: Request)
    requires ScopedRun(w, req)
    ensures ExecuteSpec(w, req).forwards == RunForwards(w, req.invocations, w.resolved.value)
  {
    StopIsFirst(w, req.invocations, w.resolved.value, 0);
  }

  lemma LastForward(w: World, invs: seq<Invocation>, scope: Scope)
    ensures var stop := StopOf(w, invs, scope, 0);
      && (stop.FailedAt? ==> w.forwarder && w.forward(stop.i).Some?)
      && (!stop.FailedAt? && w.forwarder && Position(stop, |invs|) > 0 ==> w.forward(Position(stop, |invs|) - 1).None?)
  {
    StopIsFirst(w, invs, scope, 0);
    var k := Position(StopOf(w, invs, scope, 0), |invs|);
    if k > 0 { assert Passes(w, invs, scope, k - 1); }
  }

  /** The event's per-kind counts add up to its invocation count; in scoped mode with a forwarder that count is the
      number of forwards that succeeded, plus one if a forward failed. */
  lemma EventAccounts(w: World, req: Request)
    requires ExecuteSpec(w, req).published != []
    ensures var e := ExecuteSpec(w, req); var event := e.published[0];
      && CountOf(event.counts, Slack) + CountOf(event.counts, Jira) == event.invocationCount
      && (w.forwarder && req.mode == Scoped ==>
            event.invocationCount == Succeeded(w, e) + if ForwardFailed(w, e) then 1 else 0)
      && (req.mode == Ghost || !w.forwarder ==> event.invocationCount == |req.invocations|)
      && event.proposal == req.proposal && event.toolName == req.toolName && event.mode == req.mode
  {
    forall j | 0 <= j < |req.invocations|
      ensures !req.invocations[j].kind.OtherKind?
    {
      ValidInvocations(req.invocations, j);
    }
    if req.mode == Ghost {
      CountsAddUp(req, GhostOutcomes(req.invocations));
    } else {
      ScopedShape(w, req);
      ScopedEventCounts(w, req);
    }
  }

  lemma ScopedEventCounts(w: World, req: Request)
    requires ScopedRun(w, req) && ExecuteSpec(w, req).published != []
    requires forall j :: 0 <= j < |req.invocations| ==> !req.invocations[j].kind.OtherKind?
    ensures var event := ExecuteSpec(w, req).published[0];
      CountOf(event.counts, Slack) + CountOf(event.counts, Jira) == event.invocationCount
  {
    CountsAddUp(req, RunOutcomes(w, req.invocations, w.resolved.value));
  }
}
