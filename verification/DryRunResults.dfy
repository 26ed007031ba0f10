/** What the caller of a dry run gets back, and why (core/pkg/approval/dryrun.go). */
module DryRunResults {
  import opened Options
  import opened DryRun

  // ---------------------------------------------------------------- text

  /** The white space of the Unicode standard. */
  const WHITE_SPACE := "\U{0009}\U{000A}\U{000B}\U{000C}\U{000D}\U{0020}\U{0085}\U{00A0}\U{1680}\U{2000}\U{2001}\U{2002}"
    + "\U{2003}\U{2004}\U{2005}\U{2006}\U{2007}\U{2008}\U{2009}\U{200A}\U{2028}\U{2029}\U{202F}\U{205F}\U{3000}"

  lemma SpacesAre(c: char)
    ensures IsSpace(c) <==> c in WHITE_SPACE
  {
  }

  /** The UTF-8 form of a code point, section 3 of RFC 3629: six bits to each byte that follows the first. */
  function Utf8(c: char): seq<int> {
    var n := c as int;
    var tail, tail2, tail3 := 0x80 + n % 64, 0x80 + n / 64 % 64, 0x80 + n / 64 / 64 % 64;
    if n < 0x80 then [n]
    else if n < 0x800 then [0xC0 + n / 64, tail]
    else if n < 0x10000 then [0xE0 + n / 64 / 64, tail2, tail]
    else [0xF0 + n / 64 / 64 / 64, tail3, tail2, tail]
  }

  function Utf8Form(s: string): seq<int> {
    if s == "" then [] else Utf8(s[0]) + Utf8Form(s[1..])
  }

  /** How many bytes a code point takes, as the first of them says. */
  function Announced(lead: int): nat {
    if lead < 0x80 then 1 else if lead < 0xE0 then 2 else if lead < 0xF0 then 3 else 4
  }

  /** The length that is measured is that of the UTF-8 form: what its first byte announces. */
  lemma RuneForm(c: char)
    ensures RuneBytes(c) == |Utf8(c)| == Announced(Utf8(c)[0])
    ensures forall i :: 0 <= i < |Utf8(c)| ==> 0 <= Utf8(c)[i] < 0xF8 && (0x80 <= Utf8(c)[i] < 0xC0 <==> i > 0)
  {
  }

  lemma {:induction false} BytesAreUtf8(s: string)
    ensures Bytes(s) == |Utf8Form(s)|
  {
    if s != "" {
      RuneForm(s[0]);
      BytesAreUtf8(s[1..]);
    }
  }

  // ---------------------------------------------------------------- what a request must be

  /** A name within its limit. */
  predicate Named(s: string, limit: nat) { !Blank(s) && Bytes(s) <= limit }

  predicate GoodInvocation(inv: Invocation) {
    && !inv.kind.OtherKind? && Named(inv.op, 64) && |inv.args| <= 16
    && forall k :: k in inv.args ==> Bytes(k) <= 64 && Bytes(inv.args[k]) <= 1024
  }

  predicate AllGood(invs: seq<Invocation>) { forall i :: 0 <= i < |invs| ==> GoodInvocation(invs[i]) }

  predicate GoodRequest(req: Request) {
    && req.proposal != 0 && Named(req.toolName, 64) && !req.mode.OtherMode? && |req.invocations| <= 32
    && AllGood(req.invocations)
  }

  predicate GoodScope(scope: Scope) { !Blank(scope.leadDMChannel) && !Blank(scope.jiraSandboxProject) }

  /** What is wrong with an invocation, in the order in which it is noticed. */
  predicate Complaint(inv: Invocation, e: Error) {
    && !GoodInvocation(inv)
    && (e == ErrInvalidBrokerKind <==> inv.kind.OtherKind?)
    && (e == ErrInvalidBrokerInvocation <==> !inv.kind.OtherKind? && !Named(inv.op, 64))
    && (e == ErrInvalidBrokerArgs <==> !inv.kind.OtherKind? && Named(inv.op, 64))
    && (e == ErrInvalidBrokerKind || e == ErrInvalidBrokerInvocation || e == ErrInvalidBrokerArgs)
  }

  lemma InvocationComplaint(inv: Invocation)
    ensures CheckInvocation(inv) == None <==> GoodInvocation(inv)
    ensures CheckInvocation(inv).Some? ==> Complaint(inv, CheckInvocation(inv).value)
  {
  }

  /** The first invocation that is not good. */
  predicate FirstBad(invs: seq<Invocation>, i: nat) {
    i < |invs| && !GoodInvocation(invs[i]) && forall j :: 0 <= j < i ==> GoodInvocation(invs[j])
  }

  lemma GoodAppend(invs: seq<Invocation>, inv: Invocation)
    ensures AllGood(invs + [inv]) <==> AllGood(invs) && GoodInvocation(inv)
  {
    var longer := invs + [inv];
    assert longer[|invs|] == inv;
    if AllGood(longer) {
      assert forall i :: 0 <= i < |invs| ==> invs[i] == longer[i];
    }
  }

  lemma {:induction false} InvocationsPass(invs: seq<Invocation>)
    ensures CheckInvocations(invs) == None <==> AllGood(invs)
  {
    if invs != [] {
      var n := |invs| - 1;
      InvocationsPass(invs[..n]);
      InvocationComplaint(invs[n]);
      GoodAppend(invs[..n], invs[n]);
      assert invs == invs[..n] + [invs[n]];
    }
  }

  /** The error about a list of invocations is the complaint about the first that is not good. */
  lemma {:induction false} InvocationsComplaint(invs: seq<Invocation>) returns (i: nat)
    requires CheckInvocations(invs).Some?
    ensures FirstBad(invs, i) && Complaint(invs[i], CheckInvocations(invs).value)
  {
    var n := |invs| - 1;
    if CheckInvocations(invs[..n]).Some? {
      i := InvocationsComplaint(invs[..n]);
      assert invs[..n][i] == invs[i];
      assert forall j :: 0 <= j < i ==> invs[..n][j] == invs[j];
    } else {
      i := n;
      InvocationsPass(invs[..n]);
      InvocationComplaint(invs[n]);
      assert forall j :: 0 <= j < n ==> invs[..n][j] == invs[j];
    }
  }

  /** A request passes exactly when it is good; otherwise the error names the first thing that is wrong with it. */
  lemma RequestComplaint(req: Request)
    ensures CheckRequest(req) == None <==> GoodRequest(req)
    ensures CheckRequest(req).Some? ==>
      var e := CheckRequest(req).value;
      var named := req.proposal != 0 && Named(req.toolName, 64);
      && (e == ErrInvalidDryRunRequest <==> !named)
      && (e == ErrInvalidDryRunMode <==> named && req.mode.OtherMode?)
      && (e == ErrInvocationsExceedLimit <==> named && !req.mode.OtherMode? && |req.invocations| > 32)
      && (named && !req.mode.OtherMode? && |req.invocations| <= 32 ==>
            exists i: nat :: FirstBad(req.invocations, i) && Complaint(req.invocations[i], e))
  {
    InvocationsPass(req.invocations);
    if CheckInvocations(req.invocations).Some? {
      var i := InvocationsComplaint(req.invocations);
    }
  }

  lemma ScopeComplaint(scope: Scope)
    ensures CheckScope(scope) == None <==> GoodScope(scope)
    ensures CheckScope(scope) == Some(ErrEmptyResolvedScope) <==> scope.leadDMChannel == "" == scope.jiraSandboxProject
    ensures CheckScope(scope).Some? ==> CheckScope(scope).value == ErrEmptyResolvedScope || CheckScope(scope).value == ErrInvalidScope
  {
  }

  // ---------------------------------------------------------------- how a run went

  /** A scoped run that was let begin: a good request, a caller still there, a good scope. */
  predicate Begun(w: World, req: Request) {
    GoodRequest(req) && !w.cancelled(0) && req.mode == Scoped && w.resolved.Some? && GoodScope(w.resolved.value)
  }

  /** Rewriting would give the invocation more than 16 arguments. */
  predicate Overflows(inv: Invocation) {
    |inv.args| == 16 && (if inv.kind == Slack then "channel" !in inv.args else "project" !in inv.args)
  }

  /** Nothing stops a scoped run at invocation `j`. */
  predicate GoesOn(w: World, req: Request, j: nat)
    requires j < |req.invocations|
  {
    !w.cancelled(1 + j) && !Overflows(req.invocations[j]) && (w.forwarder ==> w.forward(j) == None)
  }

  /** The first invocation at which something does. */
  predicate StopsAt(w: World, req: Request, k: nat) {
    k < |req.invocations| && !GoesOn(w, req, k) && forall j :: 0 <= j < k ==> GoesOn(w, req, j)
  }

  predicate NeverStops(w: World, req: Request) { forall j :: 0 <= j < |req.invocations| ==> GoesOn(w, req, j) }

  /** A Forward call has succeeded before invocation `k` is reached. */
  predicate FiredBefore(w: World, k: nat) { w.forwarder && k > 0 }

  /** The run came to its publish: in ghost mode past its last look at the context, in scoped mode past its last
      invocation, with a last look only if nothing had been forwarded. */
  predicate ReachedThePublish(w: World, req: Request) {
    || (GoodRequest(req) && !w.cancelled(0) && req.mode == Ghost && !w.cancelled(1))
    || (Begun(w, req) && NeverStops(w, req)
        && (FiredBefore(w, |req.invocations|) || !w.cancelled(1 + |req.invocations|)))
  }

  /** What stopped a scoped run at invocation `k`. */
  function CauseAt(w: World, req: Request, k: nat): Error
    requires StopsAt(w, req, k)
  {
    if w.cancelled(1 + k) then ErrContext
    else if Overflows(req.invocations[k]) then ErrInvalidBrokerArgs
    else ErrBrokerForward(k, w.forward(k).value)
  }

  /** The stop of the specification is the first invocation at which something stops the run. */
  lemma PassesIsGoesOn(w: World, req: Request, j: nat)
    requires Begun(w, req) && j < |req.invocations|
    ensures Passes(w, req.invocations, w.resolved.value, j) <==> GoesOn(w, req, j)
    ensures Rewrite(req.invocations[j], w.resolved.value) == None <==> Overflows(req.invocations[j])
  {
    InvocationComplaint(req.invocations[j]);
    RewriteForcesScope(req.invocations[j], w.resolved.value);
  }

  lemma StopIs(w: World, req: Request)
    requires Begun(w, req)
    ensures var stop := StopOf(w, req.invocations, w.resolved.value, 0);
      && (stop == Completed <==> NeverStops(w, req))
      && (stop != Completed ==> StopsAt(w, req, stop.i))
      && (stop.CancelledAt? ==> CauseAt(w, req, stop.i) == ErrContext)
      && (stop.OverflowAt? ==> CauseAt(w, req, stop.i) == ErrInvalidBrokerArgs)
      && (stop.FailedAt? ==> w.forwarder && CauseAt(w, req, stop.i) == ErrBrokerForward(stop.i, stop.cause))
  {
    StopIsFirst(w, req.invocations, w.resolved.value, 0);
    forall j | 0 <= j < |req.invocations|
      ensures Passes(w, req.invocations, w.resolved.value, j) <==> GoesOn(w, req, j)
      ensures Rewrite(req.invocations[j], w.resolved.value) == None <==> Overflows(req.invocations[j])
    {
      PassesIsGoesOn(w, req, j);
    }
  }

  lemma OneStop(w: World, req: Request, i: nat, k: nat)
    requires StopsAt(w, req, i) && StopsAt(w, req, k)
    ensures i == k
  {
    assert i < k || k < i || i == k;
  }

  lemma SpecIs(w: World, req: Request)
    ensures ScopedRun(w, req) <==> Begun(w, req)
    ensures CheckRequest(req).None? <==> GoodRequest(req)
  {
    RequestComplaint(req);
    if w.resolved.Some? { ScopeComplaint(w.resolved.value); }
  }

  /** A run that begins is its scoped part. */
  lemma BegunIsScoped(w: World, req: Request)
    requires Begun(w, req)
    ensures ExecuteSpec(w, req) == ScopedSpec(w, req, w.resolved.value)
  {
    SpecIs(w, req);
  }

  // ---------------------------------------------------------------- the error

  /** The error of a scoped run, by what stopped it. */
  lemma ErrorOfStop(w: World, req: Request, scope: Scope)
    ensures var n := |req.invocations|; var stop := StopOf(w, req.invocations, scope, 0);
      var fired, error := w.forwarder && Position(stop, n) > 0, ScopedSpec(w, req, scope).error;
      && (stop == Completed ==>
            error == if !fired && w.cancelled(1 + n) then Some(ErrContext)
                     else if w.publishes then None else Some(ErrPublishDryRunExecuted))
      && (stop != Completed ==>
            var cause := if stop.CancelledAt? then ErrContext
                         else if stop.OverflowAt? then ErrInvalidBrokerArgs else ErrBrokerForward(stop.i, stop.cause);
            error == Some(if fired && !w.publishes then Joined(cause, ErrPublishDryRunExecuted) else cause))
  {
    var invs := req.invocations;
    var outcomes, forwards := RunOutcomes(w, invs, scope), RunForwards(w, invs, scope);
    match StopOf(w, invs, scope, 0)
    case Completed =>
    case CancelledAt(_) => assert PublishingPartial(w, req, outcomes, forwards, ErrContext).error.Some?;
    case OverflowAt(_) => assert PublishingPartial(w, req, outcomes, forwards, ErrInvalidBrokerArgs).error.Some?;
    case FailedAt(i, cause) => assert PublishingPartial(w, req, outcomes, forwards, ErrBrokerForward(i, cause)).error.Some?;
  }

  lemma BegunErrorMeans(w: World, req: Request)
    requires Begun(w, req)
    ensures ExecuteSpec(w, req).error == None <==> ReachedThePublish(w, req) && w.publishes
    ensures ExecuteSpec(w, req).error == Some(ErrPublishDryRunExecuted) <==> ReachedThePublish(w, req) && !w.publishes
  {
    BegunIsScoped(w, req);
    ErrorOfStop(w, req, w.resolved.value);
    StopIs(w, req);
  }

  /** There is no error exactly when the run reached its publish and the publish worked; "publish failed" alone means
      that it reached it and the publish did not. */
  lemma NoErrorMeans(w: World, req: Request)
    ensures ExecuteSpec(w, req).error == None <==> ReachedThePublish(w, req) && w.publishes
    ensures ExecuteSpec(w, req).error == Some(ErrPublishDryRunExecuted) <==> ReachedThePublish(w, req) && !w.publishes
  {
    if Begun(w, req) {
      BegunErrorMeans(w, req);
    } else {
      SpecIs(w, req);
      RequestComplaint(req);
      if w.resolved.Some? { ScopeComplaint(w.resolved.value); }
    }
  }

  /** A run that something stopped says what stopped it first, and at which invocation; a partial publish that failed is
      joined to that, and nothing else is. */
  lemma StoppedMeans(w: World, req: Request, k: nat)
    requires Begun(w, req) && StopsAt(w, req, k)
    ensures var cause := CauseAt(w, req, k);
      ExecuteSpec(w, req).error
      == Some(if FiredBefore(w, k) && !w.publishes then Joined(cause, ErrPublishDryRunExecuted) else cause)
  {
    BegunIsScoped(w, req);
    ErrorOfStop(w, req, w.resolved.value);
    StopIs(w, req);
    var stop := StopOf(w, req.invocations, w.resolved.value, 0);
    assert stop != Completed;
    OneStop(w, req, k, stop.i);
  }

  /** A run that never began: why. */
  lemma NeverBegunMeans(w: World, req: Request)
    ensures var e := ExecuteSpec(w, req).error;
      && (!GoodRequest(req) ==> e == CheckRequest(req))
      && (GoodRequest(req) && w.cancelled(0) ==> e == Some(ErrContext))
      && (GoodRequest(req) && !w.cancelled(0) && req.mode == NoneMode ==> e == Some(ErrPreApprovalWarning))
      && (GoodRequest(req) && !w.cancelled(0) && req.mode == Ghost && w.cancelled(1) ==> e == Some(ErrContext))
      && (GoodRequest(req) && !w.cancelled(0) && req.mode == Scoped && w.resolved == None ==> e == Some(ErrScopeResolution))
      && (GoodRequest(req) && !w.cancelled(0) && req.mode == Scoped && w.resolved.Some? && !GoodScope(w.resolved.value) ==>
            e == Some(if w.resolved.value == Scope("", "") then ErrEmptyResolvedScope else ErrInvalidScope))
      && (Begun(w, req) && NeverStops(w, req) && !FiredBefore(w, |req.invocations|) && w.cancelled(1 + |req.invocations|) ==>
            e == Some(ErrContext))
  {
    SpecIs(w, req);
    RequestComplaint(req);
    if w.resolved.Some? { ScopeComplaint(w.resolved.value); }
    if Begun(w, req) { StopIs(w, req); }
  }

  // ---------------------------------------------------------------- the trace

  /** A stop at which the caller still gets what there is: real side effects happened, or a forward was tried. */
  predicate LeavesATrace(w: World, req: Request, k: nat)
    requires StopsAt(w, req, k)
  {
    FiredBefore(w, k) || CauseAt(w, req, k).ErrBrokerForward?
  }

  /** How many outcomes a stopped run has: a failed forward has one, anything else that stopped it has none. */
  function OutcomesAt(w: World, req: Request, k: nat): nat
    requires StopsAt(w, req, k)
  {
    if CauseAt(w, req, k).ErrBrokerForward? then k + 1 else k
  }

  /** Whether a scoped run returns a trace, by what stopped it, and how many outcomes it has. */
  lemma TraceOfStop(w: World, req: Request, scope: Scope)
    ensures var n := |req.invocations|; var stop := StopOf(w, req.invocations, scope, 0);
      var fired, trace := w.forwarder && Position(stop, n) > 0, ScopedSpec(w, req, scope).trace;
      && (stop == Completed ==> (trace.Some? <==> (fired || !w.cancelled(1 + n)) && w.publishes))
      && (stop != Completed ==> (trace.Some? <==> fired || stop.FailedAt?))
      && (trace.Some? ==> |trace.value.outcomes| == Recorded(stop, n))
  {
  }

  lemma BegunTrace(w: World, req: Request)
    requires Begun(w, req)
    ensures var trace := ExecuteSpec(w, req).trace;
      && (trace.Some? <==>
            (ReachedThePublish(w, req) && w.publishes) || exists k :: StopsAt(w, req, k) && LeavesATrace(w, req, k))
      && (ReachedThePublish(w, req) && trace.Some? ==> |trace.value.outcomes| == |req.invocations|)
      && (trace.Some? ==> forall k :: StopsAt(w, req, k) ==> |trace.value.outcomes| == OutcomesAt(w, req, k))
  {
    BegunIsScoped(w, req);
    TraceOfStop(w, req, w.resolved.value);
    StopIs(w, req);
    var stop := StopOf(w, req.invocations, w.resolved.value, 0);
    forall k | StopsAt(w, req, k)
      ensures stop != Completed && k == stop.i
    {
      if stop != Completed { OneStop(w, req, k, stop.i); }
    }
  }

  /** A trace is returned exactly when the run was published in full, or stopped with something to show; it then holds
      that many outcomes. */
  lemma TraceIsReturnedIff(w: World, req: Request)
    ensures var trace := ExecuteSpec(w, req).trace;
      && (trace.Some? <==>
            || (ReachedThePublish(w, req) && w.publishes)
            || (Begun(w, req) && exists k :: StopsAt(w, req, k) && LeavesATrace(w, req, k)))
      && (ReachedThePublish(w, req) && w.publishes ==> |trace.value.outcomes| == |req.invocations|)
      && (trace.Some? && Begun(w, req) ==>
            forall k :: StopsAt(w, req, k) ==> |trace.value.outcomes| == OutcomesAt(w, req, k))
  {
    if Begun(w, req) {
      BegunTrace(w, req);
    } else {
      SpecIs(w, req);
    }
  }

  /** What an outcome of invocation `j` holds.  A ghost run changes nothing and forwards nothing; a scoped run holds the
      invocation with the scope's channel or project forced into it, and what the forwarder said. */
  predicate OutcomeIs(w: World, req: Request, j: nat, o: Outcome)
    requires j < |req.invocations|
  {
    && o.original == req.invocations[j]
    && (req.mode == Ghost ==> o.effective == req.invocations[j] && o.disposition == Ghosted && o.forwardErr == None)
    && (req.mode == Scoped ==>
          && w.resolved.Some? && o.disposition == DispositionScoped
          && o.effective.kind == o.original.kind && o.effective.op == o.original.op
          && o.effective.args
             == (if o.original.kind == Slack then o.original.args["channel" := w.resolved.value.leadDMChannel]
                 else o.original.args["project" := w.resolved.value.jiraSandboxProject])
          && o.forwardErr == (if w.forwarder then w.forward(j) else None))
  }

  lemma RewriteIs(inv: Invocation, scope: Scope)
    requires GoodInvocation(inv) && Rewrite(inv, scope).Some?
    ensures var r := Rewrite(inv, scope).value;
      && r.kind == inv.kind && r.op == inv.op
      && r.args == (if inv.kind == Slack then inv.args["channel" := scope.leadDMChannel]
                    else inv.args["project" := scope.jiraSandboxProject])
  {
  }

  lemma ScopedOutcomeIs(w: World, req: Request, j: nat)
    requires Begun(w, req) && j < |RunOutcomes(w, req.invocations, w.resolved.value)|
    ensures OutcomeIs(w, req, j, RunOutcomes(w, req.invocations, w.resolved.value)[j])
  {
    var invs, scope := req.invocations, w.resolved.value;
    RecordedRewritten(w, invs, scope);
    RewriteIs(invs[j], scope);
    StopIsFirst(w, invs, scope, 0);
    var stop := StopOf(w, invs, scope, 0);
    if j < Position(stop, |invs|) { assert Passes(w, invs, scope, j); }
  }

  /** A trace is made of the outcomes of its mode. */
  lemma TraceIsOfOutcomes(w: World, req: Request)
    requires ExecuteSpec(w, req).trace.Some?
    ensures GoodRequest(req) && (req.mode == Ghost || Begun(w, req))
    ensures ExecuteSpec(w, req).trace.value
      == TraceOf(req, if req.mode == Ghost then GhostOutcomes(req.invocations)
                      else RunOutcomes(w, req.invocations, w.resolved.value))
  {
    SpecIs(w, req);
  }

  /** A trace names its request, and its outcomes are those of the first invocations, in order. */
  lemma TraceHolds(w: World, req: Request)
    requires ExecuteSpec(w, req).trace.Some?
    ensures var trace := ExecuteSpec(w, req).trace.value;
      && trace.proposal == req.proposal && trace.toolName == req.toolName && trace.mode == req.mode
      && |trace.outcomes| <= |req.invocations| && (req.mode == Ghost || req.mode == Scoped)
      && forall j :: 0 <= j < |trace.outcomes| ==> OutcomeIs(w, req, j, trace.outcomes[j])
  {
    TraceIsOfOutcomes(w, req);
    if req.mode == Scoped {
      forall j | 0 <= j < |RunOutcomes(w, req.invocations, w.resolved.value)|
        ensures OutcomeIs(w, req, j, RunOutcomes(w, req.invocations, w.resolved.value)[j])
      {
        ScopedOutcomeIs(w, req, j);
      }
    }
  }

  // ---------------------------------------------------------------- the event

  function KindCount(invs: seq<Invocation>, kind: BrokerKind): nat {
    if invs == [] then 0 else KindCount(invs[..|invs| - 1], kind) + if invs[|invs| - 1].kind == kind then 1 else 0
  }

  function KindsOf(invs: seq<Invocation>): (r: seq<BrokerKind>)
    ensures |r| == |invs|
  {
    seq(|invs|, j requires 0 <= j < |invs| => invs[j].kind)
  }

  lemma {:induction false} KindsAreCounted(invs: seq<Invocation>, kind: BrokerKind)
    ensures multiset(KindsOf(invs))[kind] == KindCount(invs, kind)
  {
    if invs != [] {
      var n := |invs| - 1;
      KindsAreCounted(invs[..n], kind);
      assert KindsOf(invs) == KindsOf(invs[..n]) + [invs[n].kind];
    }
  }

  lemma EventCountsOutcomes(req: Request, outcomes: seq<Outcome>, kind: BrokerKind)
    requires |outcomes| <= |req.invocations|
    requires forall j :: 0 <= j < |outcomes| ==> outcomes[j].original == req.invocations[j]
    ensures CountOf(EventOf(req, outcomes).counts, kind) == KindCount(req.invocations[..|outcomes|], kind)
  {
    assert Kinds(outcomes) == KindsOf(req.invocations[..|outcomes|]);
    KindsAreCounted(req.invocations[..|outcomes|], kind);
  }

  /** The event of a run is made of its outcomes. */
  lemma EventIsOfOutcomes(w: World, req: Request)
    requires ExecuteSpec(w, req).published != []
    ensures req.mode == Ghost ==> ExecuteSpec(w, req).published == [EventOf(req, GhostOutcomes(req.invocations))]
    ensures req.mode != Ghost ==>
      w.resolved.Some? && ExecuteSpec(w, req).published == [EventOf(req, RunOutcomes(w, req.invocations, w.resolved.value))]
  {
  }

  /** The event of a run counts, kind by kind, the first invocations of the request: as many as its count says. */
  lemma EventCountsKinds(w: World, req: Request, kind: BrokerKind)
    requires ExecuteSpec(w, req).published != []
    ensures var event := ExecuteSpec(w, req).published[0];
      && event.invocationCount <= |req.invocations|
      && CountOf(event.counts, kind) == KindCount(req.invocations[..event.invocationCount], kind)
  {
    EventIsOfOutcomes(w, req);
    if req.mode == Ghost {
      EventCountsOutcomes(req, GhostOutcomes(req.invocations), kind);
    } else {
      EventCountsOutcomes(req, RunOutcomes(w, req.invocations, w.resolved.value), kind);
    }
  }
}
