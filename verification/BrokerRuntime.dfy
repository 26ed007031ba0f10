/**
 The broker with its real fields: each method is one critical section or one check of the program, and does what the
 step relation says (core/pkg/capability/broker.go).
 */
module BrokerRuntime {
  import opened CapabilityBroker
  import opened BrokerTheorems
  import opened Options

  lemma StepReachable(s: Broker, step: Step)
    requires Reachable(s) && Enabled(s, step)
    ensures Reachable(Apply(s, step))
  {
    var now: Time, reaping: bool, schedule: seq<Step> :| Exec(New(now, reaping), schedule) == Some(s);
    assert (schedule + [step])[..|schedule|] == schedule;
    assert Exec(New(now, reaping), schedule + [step]) == Some(Apply(s, step));
  }

  /** A token about to be inserted is new to the map. */
  lemma InsertedIsNew(s: Broker, i: nat)
    requires Reachable(s) && i < |s.calls| && s.calls[i].Issue? && s.calls[i].pc.Insert?
    ensures s.calls[i].pc.token !in s.tokens
  {
    ReachableIsSound(s);
    assert Carried(s.calls[i]) == Some(s.calls[i].pc.token);
    assert CarryOk(s.calls[i].pc.token, s.drawn, Replay(s.history));
  }

  /** No token that is still valid at `now` is missing. */
  ghost predicate KeepsLive(before: map<Token, Entry>, after: map<Token, Entry>, now: Time) {
    forall token :: token in before && now < before[token].expiry ==> token in after && after[token] == before[token]
  }

  lemma SampleIsPast(s: Broker)
    requires Reachable(s) && s.reaper.Sampled?
    ensures s.reaper.at <= s.now
  {
    ReachableIsSound(s);
  }

  class TokenBroker {
    var now: Time
    var tokens: map<Token, Entry>
    var closed: bool
    var done: bool
    var wiped: bool
    var reaper: ReaperPC
    var closer: ClosePC
    var drawn: set<Token>
    var calls: seq<Call>
    var history: seq<Event>

    ghost function View(): Broker
      reads this
    {
      Broker(now, tokens, closed, done, wiped, reaper, closer, drawn, calls, history)
    }

    ghost predicate Valid()
      reads this
    {
      Reachable(View())
    }

    constructor (start: Time, reaperInterval: int)
      ensures View() == New(start, reaperInterval > 0) && Valid()
    {
      now, tokens, closed, done, wiped := start, map[], false, false, false;
      reaper, closer := if reaperInterval > 0 then Ticking else NoReaper, CloseIdle;
      drawn, calls, history := {}, [], [];
      new;
      assert Exec(New(start, reaperInterval > 0), []) == Some(View());
    }

    /** Issue and IssueForOrg, the checks before the token is drawn. */
    method CheckArguments(i: nat)
      requires Valid() && Enabled(View(), RunCall(i, DrawFailed)) && calls[i].Issue? && calls[i].pc == Begin
      modifies this`calls
      ensures Valid() && View() == Apply(old(View()), RunCall(i, DrawFailed))
    {
      StepReachable(View(), RunCall(i, DrawFailed));
      var c := calls[i];
      if c.scope == "" {
        calls := calls[i := At(c, Returned(ErrInvalidScope))];
      } else if c.organization == Some("") {
        calls := calls[i := At(c, Returned(ErrInvalidOrganization))];
      } else if c.ttl <= 0 {
        calls := calls[i := At(c, Returned(ErrInvalidTTL))];
      } else if closed {
        calls := calls[i := At(c, Returned(ErrClosed))];
      } else {
        calls := calls[i := At(c, Generate)];
      }
    }

    /** Issue and IssueForOrg, the insert under the write lock: `closed` is loaded again. */
    method InsertToken(i: nat)
      requires Valid() && Enabled(View(), RunCall(i, DrawFailed)) && calls[i].Issue? && calls[i].pc.Insert?
      modifies this`calls, this`tokens, this`history
      ensures Valid() && View() == Apply(old(View()), RunCall(i, DrawFailed))
      ensures old(closed) ==> tokens == old(tokens)
      ensures !old(closed) ==>
        var c := old(calls)[i];
        && c.pc.token !in old(tokens)
        && tokens == old(tokens)[c.pc.token :=
             Entry(c.scope, match c.organization case Some(o) => o case None => "", c.pc.expiry)]
    {
      StepReachable(View(), RunCall(i, DrawFailed));
      var c := calls[i];
      if closed {
        calls := calls[i := At(c, Returned(ErrClosed))];
        return;
      }
      var organization := match c.organization case Some(o) => o case None => "";
      var entry := Entry(c.scope, organization, c.pc.expiry);
      InsertedIsNew(View(), i);
      tokens := tokens[c.pc.token := entry];
      history := history + [Issued(i, c.pc.token, entry)];
      calls := calls[i := At(c, Returned(Minted(c.pc.token)))];
    }

    /** Validate and ValidateForOrg, the lookup under the read lock and the comparisons that follow it. */
    method LookUp(i: nat)
      requires Valid() && Enabled(View(), RunCall(i, DrawFailed)) && calls[i].Validate? && calls[i].pc == Lookup
      modifies this`calls, this`history
      ensures Valid() && View() == Apply(old(View()), RunCall(i, DrawFailed))
      ensures tokens == old(tokens) && i < |calls| == |old(calls)|
      ensures !wiped ==> (calls[i].pc == Returned(CapabilityBroker.Valid) <==>
        Grants(Replay(old(history)), now, old(calls)[i].token, old(calls)[i].scope, old(calls)[i].organization))
    {
      if !wiped { ValidateSucceedsIff(View(), i); }
      StepReachable(View(), RunCall(i, DrawFailed));
      var c := calls[i];
      var answer;
      if c.token !in tokens {
        answer := ErrInvalidToken;
      } else {
        var e := tokens[c.token];
        if !(now < e.expiry) {
          answer := ErrTokenExpired;
        } else if e.scope != c.scope {
          answer := ErrScopeMismatch;
        } else if c.organization.Some? && e.organization != c.organization.value {
          answer := ErrOrganizationMismatch;
        } else {
          answer := CapabilityBroker.Valid;
        }
      }
      calls := calls[i := At(c, if answer == ErrTokenExpired then DeleteExpired else Returned(answer))];
      history := history + [Checked(i, c.token, c.scope, c.organization, now, !wiped, answer)];
    }

    /** Validate, the lazy deletion: the entry is looked up again under the write lock. */
    method DeleteIfExpired(i: nat)
      requires Valid() && Enabled(View(), RunCall(i, DrawFailed)) && calls[i].Validate? && calls[i].pc == DeleteExpired
      modifies this`calls, this`tokens
      ensures Valid() && View() == Apply(old(View()), RunCall(i, DrawFailed))
      ensures KeepsLive(old(tokens), tokens, now)
      ensures var token := old(calls)[i].token; token in tokens ==> now < tokens[token].expiry
      ensures forall k :: k != old(calls)[i].token && k in old(tokens) ==> k in tokens
    {
      StepReachable(View(), RunCall(i, DrawFailed));
      var c := calls[i];
      if c.token in tokens && !(now < tokens[c.token].expiry) {
        tokens := tokens - {c.token};
      }
      calls := calls[i := At(c, Returned(ErrTokenExpired))];
    }

    /** Revoke, under the write lock; deleting a missing key has no effect. */
    method DeleteToken(i: nat)
      requires Valid() && Enabled(View(), RunCall(i, DrawFailed)) && calls[i].Revoke? && calls[i].pc == Delete
      modifies this`calls, this`tokens, this`history
      ensures Valid() && View() == Apply(old(View()), RunCall(i, DrawFailed))
      ensures forall k :: k in tokens <==> k in old(tokens) && k != old(calls)[i].token
    {
      StepReachable(View(), RunCall(i, DrawFailed));
      var c := calls[i];
      tokens := tokens - {c.token};
      history := history + [Revoked(i, c.token)];
      calls := calls[i := At(c, Returned(Done))];
    }

    /** pruneExpired, the loop under the write lock with the clock reading taken before it; a Go map is visited in no
        fixed order, and deleting the entry being visited is allowed. */
    method PruneExpired()
      requires Valid() && reaper.Sampled?
      modifies this`tokens, this`reaper
      ensures Valid() && View() == Apply(old(View()), ReaperSweep)
      ensures KeepsLive(old(tokens), tokens, now)
      ensures forall k :: k in tokens <==> k in old(tokens) && old(reaper).at < old(tokens)[k].expiry
    {
      StepReachable(View(), ReaperSweep);
      SampleIsPast(View());
      var at := reaper.at;
      var unvisited := tokens.Keys;
      while unvisited != {}
        invariant unvisited <= tokens.Keys
        invariant forall k :: k in tokens ==> k in old(tokens) && tokens[k] == old(tokens)[k]
        invariant forall k :: k in old(tokens) && k !in unvisited ==> (k in tokens <==> at < old(tokens)[k].expiry)
        decreases |unvisited|
      {
        var token :| token in unvisited;
        if !(at < tokens[token].expiry) {
          tokens := tokens - {token};
        }
        unvisited := unvisited - {token};
      }
      reaper := Ticking;
      assert tokens == Unexpired(old(tokens), at);
    }

    /** Close, the body of closeOnce after the reaper has been joined. */
    method Wipe()
      requires Valid() && closer == CloseWipe
      modifies this`tokens, this`wiped, this`closer
      ensures Valid() && View() == Apply(old(View()), CloseStep) && tokens == map[]
    {
      StepReachable(View(), CloseStep);
      tokens, wiped, closer := map[], true, CloseDone;
    }
  }
}
