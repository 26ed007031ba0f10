/** The executor as it is written: loops over the invocations, with its calls to the outside recorded in order. */
module DryRunExecutor {
  import opened DryRun
  import opened Options

  lemma OneMoreRewrite(invs: seq<Invocation>, scope: Scope, i: nat)
    requires i < |invs| && forall j :: 0 <= j <= i ==> Rewrite(invs[j], scope).Some?
    ensures Rewrites(invs, scope, i + 1) == Rewrites(invs, scope, i) + [Rewrite(invs[i], scope).value]
  {
  }

  lemma OneMoreOutcome(invs: seq<Invocation>, scope: Scope, i: nat, failure: Option<string>)
    requires i < |invs| && forall j :: 0 <= j <= i ==> Rewrite(invs[j], scope).Some?
    ensures ScopedOutcomes(invs, scope, i + 1, failure)
      == ScopedOutcomes(invs, scope, i, None)
         + [Outcome(invs[i], Rewrite(invs[i], scope).value, DispositionScoped, failure)]
  {
  }

  lemma CountOneMore(kinds: seq<BrokerKind>, kind: BrokerKind)
    ensures var counts := CountsOf(multiset(kinds));
      CountsOf(multiset(kinds + [kind])) == counts[kind := (if kind in counts then counts[kind] else 0) + 1]
  {
    assert multiset(kinds + [kind]) == multiset(kinds) + multiset{kind};
  }

  /** One Execute call and its surroundings. */
  class Execution {
    const w: World
    var polls: nat
    var forwards: seq<Invocation>
    var published: seq<Executed>

    constructor (w: World)
      ensures this.w == w && polls == 0 && forwards == [] && published == []
    {
      this.w := w;
      polls, forwards, published := 0, [], [];
    }

    method ContextErr() returns (cancelled: bool)
      modifies this`polls
      ensures cancelled == w.cancelled(old(polls)) && polls == old(polls) + 1
    {
      cancelled := w.cancelled(polls);
      polls := polls + 1;
    }

    method Forward(inv: Invocation) returns (err: Option<string>)
      modifies this`forwards
      ensures forwards == old(forwards) + [inv] && err == w.forward(|old(forwards)|)
    {
      err := w.forward(|forwards|);
      forwards := forwards + [inv];
    }

    /** cloneBrokerInvocation */
    static method Clone(inv: Invocation) returns (copy: Invocation)
      ensures copy == inv
    {
      var args: map<string, string> := map[];
      var rest := inv.args.Keys;
      while rest != {}
        invariant rest <= inv.args.Keys
        invariant args == map k | k in inv.args && k !in rest :: inv.args[k]
        decreases |rest|
      {
        var k :| k in rest;
        args := args[k := inv.args[k]];
        rest := rest - {k};
      }
      assert args == inv.args;
      copy := Invocation(inv.kind, inv.op, args);
    }

    static method RewriteForScope(inv: Invocation, scope: Scope) returns (r: Option<Invocation>)
      ensures r == Rewrite(inv, scope)
    {
      var copy := Clone(inv);
      var args := copy.args;
      match inv.kind {
        case Slack => args := args["channel" := scope.leadDMChannel];
        case Jira => args := args["project" := scope.jiraSandboxProject];
        case OtherKind(_) =>
      }
      if |args| > MAX_BROKER_ARG_COUNT {
        r := None;
      } else {
        r := Some(Invocation(inv.kind, inv.op, args));
      }
    }

    /** newDryRunExecutedEvent */
    static method NewEvent(req: Request, outcomes: seq<Outcome>) returns (e: Executed)
      ensures e == EventOf(req, outcomes)
    {
      var counts: map<BrokerKind, nat> := map[];
      for i := 0 to |outcomes|
        invariant counts == CountsOf(multiset(Kinds(outcomes)[..i]))
      {
        var kind := outcomes[i].original.kind;
        assert Kinds(outcomes)[..i + 1] == Kinds(outcomes)[..i] + [kind];
        CountOneMore(Kinds(outcomes)[..i], kind);
        counts := counts[kind := (if kind in counts then counts[kind] else 0) + 1];
      }
      assert Kinds(outcomes)[..|outcomes|] == Kinds(outcomes);
      e := Executed(req.proposal, req.toolName, req.mode, counts, |outcomes|);
    }

    /** The full publish: the trace is returned only if it worked. */
    method PublishTrace(req: Request, outcomes: seq<Outcome>) returns (trace: Option<Trace>, err: Option<Error>)
      requires published == []
      modifies this`published
      ensures Effects(forwards, published, trace, err) == Publishing(w, req, outcomes, forwards)
    {
      var event := NewEvent(req, outcomes);
      published := published + [event];
      if !w.publishes {
        return None, Some(ErrPublishDryRunExecuted);
      }
      return Some(TraceOf(req, outcomes)), None;
    }

    method PublishPartial(req: Request, outcomes: seq<Outcome>, cause: Error)
      returns (trace: Option<Trace>, err: Option<Error>)
      requires published == []
      modifies this`published
      ensures Effects(forwards, published, trace, err) == PublishingPartial(w, req, outcomes, forwards, cause)
    {
      trace := Some(TraceOf(req, outcomes));
      var event := NewEvent(req, outcomes);
      published := published + [event];
      err := Some(if w.publishes then cause else Joined(cause, ErrPublishDryRunExecuted));
    }

    method ExecuteGhost(req: Request) returns (trace: Option<Trace>, err: Option<Error>)
      requires polls == 1 && forwards == [] && published == []
      modifies this
      ensures Effects(forwards, published, trace, err)
        == if w.cancelled(1) then Fail(ErrContext) else Publishing(w, req, GhostOutcomes(req.invocations), [])
    {
      var outcomes: seq<Outcome> := [];
      for i := 0 to |req.invocations|
        invariant outcomes == GhostOutcomes(req.invocations)[..i]
        invariant polls == 1 && forwards == [] && published == []
      {
        var original := Clone(req.invocations[i]);
        var effective := Clone(req.invocations[i]);
        outcomes := outcomes + [Outcome(original, effective, Ghosted, None)];
      }
      assert outcomes == GhostOutcomes(req.invocations);
      var cancelled := ContextErr();
      if cancelled {
        return None, Some(ErrContext);
      }
      trace, err := PublishTrace(req, outcomes);
    }

    method ExecuteScoped(req: Request, scope: Scope) returns (trace: Option<Trace>, err: Option<Error>)
      requires polls == 1 && forwards == [] && published == []
      modifies this
      ensures Effects(forwards, published, trace, err) == ScopedSpec(w, req, scope)
    {
      var invs := req.invocations;
      var outcomes: seq<Outcome> := [];
      var sideEffectsFired := false;
      for i := 0 to |invs|
        invariant polls == 1 + i && published == []
        invariant StopOf(w, invs, scope, 0) == StopOf(w, invs, scope, i)
        invariant forall j :: 0 <= j < i ==> Rewrite(invs[j], scope).Some?
        invariant outcomes == ScopedOutcomes(invs, scope, i, None)
        invariant forwards == if w.forwarder then Rewrites(invs, scope, i) else []
        invariant sideEffectsFired == (w.forwarder && i > 0)
      {
        var cancelled := ContextErr();
        if cancelled {
          if sideEffectsFired {
            trace, err := PublishPartial(req, outcomes, ErrContext);
            return;
          }
          return None, Some(ErrContext);
        }
        var original := Clone(invs[i]);
        var effective := RewriteForScope(invs[i], scope);
        if effective.None? {
          if sideEffectsFired {
            trace, err := PublishPartial(req, outcomes, ErrInvalidBrokerArgs);
            return;
          }
          return None, Some(ErrInvalidBrokerArgs);
        }
        if w.forwarder {
          var forwardErr := Forward(effective.value);
          OneMoreRewrite(invs, scope, i);
          if forwardErr.Some? {
            OneMoreOutcome(invs, scope, i, forwardErr);
            outcomes := outcomes + [Outcome(original, effective.value, DispositionScoped, forwardErr)];
            if sideEffectsFired {
              trace, err := PublishPartial(req, outcomes, ErrBrokerForward(i, forwardErr.value));
              return;
            }
            return Some(TraceOf(req, outcomes)), Some(ErrBrokerForward(i, forwardErr.value));
          }
          sideEffectsFired := true;
        }
        OneMoreOutcome(invs, scope, i, None);
        outcomes := outcomes + [Outcome(original, effective.value, DispositionScoped, None)];
      }
      if !sideEffectsFired {
        var cancelled := ContextErr();
        if cancelled {
          return None, Some(ErrContext);
        }
      }
      trace, err := PublishTrace(req, outcomes);
    }

    method Execute(req: Request) returns (trace: Option<Trace>, err: Option<Error>)
      requires polls == 0 && forwards == [] && published == []
      modifies this
      ensures Effects(forwards, published, trace, err) == ExecuteSpec(w, req)
    {
      err := CheckRequest(req);
      if err.Some? {
        return None, err;
      }
      var cancelled := ContextErr();
      if cancelled {
        return None, Some(ErrContext);
      }
      match req.mode {
        case NoneMode => return None, Some(ErrPreApprovalWarning);
        case Ghost => trace, err := ExecuteGhost(req);
        case Scoped =>
          if w.resolved.None? {
            return None, Some(ErrScopeResolution);
          }
          err := CheckScope(w.resolved.value);
          if err.Some? {
            return None, err;
          }
          trace, err := ExecuteScoped(req, w.resolved.value);
        case OtherMode(_) => return None, Some(ErrInvalidDryRunMode);
      }
    }
  }
}
