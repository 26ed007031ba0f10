/** No event is ever given twice to the bridge's handler of a binding, whatever Start, its rollback and Stop do. */
module AuditOnce {
  import opened BusModel
  import opened BusDelivery
  import opened BusOwners
  import opened BusHistory
  import opened AuditBridge
  import opened AuditTheorems
  import opened Options

  // ---------------------------------------------------------------- one entry per binding

  /** At most one entry of a list holds the handler of binding `k`. */
  ghost predicate Single(entries: seq<HandlerEntry>, k: nat) {
    forall i, j :: 0 <= i < j < |entries| ==> !(entries[i].handler == k && entries[j].handler == k)
  }

  /** An entry with the handler of binding `k` belongs to the call that the bridge holds for `k`, in any phase. */
  lemma EntryIsHeld(s: Sys, k: nat, t: Tid, i: nat)
    requires Inv(s) && k < N && t < |s.bus.ts| && i < |s.bus.ts[t].entries| && s.bus.ts[t].entries[i].handler == k
    ensures k < |Held(s.phase)| && Held(s.phase)[k] < |s.bus.calls|
    ensures IdOf(s.bus.calls[Held(s.phase)[k]]) == Some(s.bus.ts[t].entries[i].id)
  {
    var e := s.bus.ts[t].entries[i];
    var p := EntriesAreOwned(s.bus, t, e);
    assert Accounted(s.bus.calls[p], p, s.phase);
    var h :| 0 <= h < |Held(s.phase)| && Held(s.phase)[h] == p;
    assert HeldOk(s.bus.calls, s.phase, h);
  }

  /** Between Start, its rollback and Stop a list never holds two handlers of one binding: each Subscribe waits for the
      removal of what an earlier one installed. */
  lemma EntriesAreSingle(s: Sys, k: nat, t: Tid)
    requires Inv(s) && k < N && t < |s.bus.ts|
    ensures Single(s.bus.ts[t].entries, k)
  {
    EntriesOrdered(s.bus, t);
    forall i, j | 0 <= i < j < |s.bus.ts[t].entries|
      ensures !(s.bus.ts[t].entries[i].handler == k && s.bus.ts[t].entries[j].handler == k)
    {
      if s.bus.ts[t].entries[i].handler == k && s.bus.ts[t].entries[j].handler == k {
        EntryIsHeld(s, k, t, i);
        EntryIsHeld(s, k, t, j);
      }
    }
  }

  ghost predicate SnapsSingle(snaps: seq<seq<HandlerEntry>>, k: nat) {
    forall i :: 0 <= i < |snaps| ==> Single(snaps[i], k)
  }

  ghost predicate AllSingle(ts: seq<TopicState>, k: nat) {
    forall t :: 0 <= t < |ts| ==> SnapsSingle(ts[t].snaps, k)
  }

  lemma StepKeepsSingle(s: Sys, step: Step, k: nat)
    requires Inv(s) && k < N && Enabled(s.bus, step) && AllSingle(s.bus.ts, k)
    ensures AllSingle(Apply(s.bus, step).ts, k)
  {
    forall t | 0 <= t < |Apply(s.bus, step).ts|
      ensures SnapsSingle(Apply(s.bus, step).ts[t].snaps, k)
    {
      StepSnaps(s.bus, step, t);
      if t < |s.bus.ts| {
        EntriesAreSingle(s, k, t);
        assert SnapsSingle(s.bus.ts[t].snaps, k);
      }
    }
  }

  lemma ActKeepsSingle(s: Sys, a: Action, k: nat)
    requires Inv(s) && k < N && CanAct(s, a) && AllSingle(s.bus.ts, k)
    ensures AllSingle(Act(s, a).bus.ts, k)
  {
    match a
    case Other(step) => StepKeepsSingle(s, step, k);
    case CallStart => StepKeepsSingle(s, SubscribeTo(0), k);
    case CallStop =>
    case Advance =>
      if Act(s, a).bus != s.bus {
        if s.phase.Starting? {
          StepKeepsSingle(s, SubscribeTo(|s.phase.own| + 1), k);
        } else {
          StepKeepsSingle(s, StartUnsubscribe(s.phase.own[s.phase.at], Outside), k);
        }
      }
  }

  lemma {:induction false} RunKeepsSingle(s: Sys, actions: seq<Action>, k: nat)
    requires Inv(s) && k < N && AllSingle(s.bus.ts, k) && Run(s, actions).Some?
    ensures AllSingle(Run(s, actions).value.bus.ts, k)
  {
    if actions != [] {
      var before := actions[..|actions| - 1];
      RunKeepsSingle(s, before, k);
      RunKeepsInv(s, before);
      ActKeepsSingle(Run(s, before).value, actions[|actions| - 1], k);
    }
  }

  /** In every attainable state no snapshot of any dispatch holds two handlers of one binding. */
  lemma SnapshotsAreSingle(s: Sys, k: nat)
    requires Attainable(s) && k < N
    ensures AllSingle(s.bus.ts, k)
  {
    var size: int, actions: seq<Action> :| Run(Sys(New(size), Fresh), actions) == Some(s);
    assert Exec(New(size), []) == Some(New(size));
    RunKeepsSingle(Sys(New(size), Fresh), actions, k);
  }

  // ---------------------------------------------------------------- one handler call per event

  /** Envelopes of different calls only. */
  ghost predicate Distinct(envs: seq<Envelope>) {
    forall i, j :: 0 <= i < j < |envs| ==> envs[i].call != envs[j].call
  }

  ghost predicate Among(envs: seq<Envelope>, log: seq<Envelope>) {
    forall i :: 0 <= i < |envs| ==> envs[i] in log
  }

  lemma {:induction false} HandledConcat(a: seq<Delivery>, b: seq<Delivery>, handler: nat)
    ensures HandledBy(a + b, handler) == HandledBy(a, handler) + HandledBy(b, handler)
  {
    if b == [] {
      assert a + b == a;
    } else {
      var n := |b| - 1;
      assert (a + b)[..|a + b| - 1] == a + b[..n] && (a + b)[|a + b| - 1] == b[n];
      HandledConcat(a, b[..n], handler);
    }
  }

  lemma {:induction false} HandledRound(env: Envelope, snap: seq<HandlerEntry>, k: nat)
    requires Single(snap, k)
    ensures HandledBy(Round(env, snap), k) == [] || HandledBy(Round(env, snap), k) == [env]
    ensures (forall i :: 0 <= i < |snap| ==> snap[i].handler != k) ==> HandledBy(Round(env, snap), k) == []
  {
    if snap != [] {
      var n := |snap| - 1;
      HandledRound(env, snap[..n], k);
      HandledLast(Round(env, snap[..n]), Delivery(snap[n].id, snap[n].handler, env), k);
      if snap[n].handler == k {
        assert forall i :: 0 <= i < n ==> snap[..n][i].handler != k;
      }
    }
  }

  lemma HandledLast(log: seq<Delivery>, d: Delivery, k: nat)
    ensures HandledBy(log + [d], k) == HandledBy(log, k) + if d.handler == k then [d.env] else []
  {
    assert (log + [d])[..|log|] == log;
  }

  /** Over any number of dispatches a handler is given some of the events, each at most once. */
  lemma {:induction false} HandledRounds(envs: seq<Envelope>, snaps: seq<seq<HandlerEntry>>, k: nat)
    requires |envs| == |snaps| && Distinct(envs) && SnapsSingle(snaps, k)
    ensures Distinct(HandledBy(Rounds(envs, snaps), k)) && Among(HandledBy(Rounds(envs, snaps), k), envs)
  {
    if snaps != [] {
      var n := |snaps| - 1;
      var front := HandledBy(Rounds(envs[..n], snaps[..n]), k);
      HandledRounds(envs[..n], snaps[..n], k);
      HandledConcat(Rounds(envs[..n], snaps[..n]), Round(envs[n], snaps[n]), k);
      assert Single(snaps[n], k);
      HandledRound(envs[n], snaps[n], k);
      OneMoreRound(front, HandledBy(Round(envs[n], snaps[n]), k), envs);
    }
  }

  lemma OneMoreRound(front: seq<Envelope>, extra: seq<Envelope>, envs: seq<Envelope>)
    requires envs != [] && Distinct(envs) && Distinct(front) && Among(front, envs[..|envs| - 1])
    requires extra == [] || extra == [envs[|envs| - 1]]
    ensures Distinct(front + extra) && Among(front + extra, envs)
  {
    forall i | 0 <= i < |front|
      ensures front[i] in envs && front[i].call != envs[|envs| - 1].call
    {
      assert front[i] in envs[..|envs| - 1];
    }
  }

  lemma HandledMidRound(x: TopicState, env: Envelope, snap: seq<HandlerEntry>, n: nat, k: nat)
    requires InRound(x, env, snap, n) && Distinct(x.dispatched) && SnapsSingle(x.snaps, k)
    ensures Distinct(HandledBy(x.delivered, k)) && Among(HandledBy(x.delivered, k), x.dispatched)
  {
    var last := |x.snaps| - 1;
    var snaps := x.snaps[..last] + [snap[..n]];
    assert snaps[..last] == x.snaps[..last] && Single(x.snaps[last], k);
    assert Single(snap[..n], k);
    HandledRounds(x.dispatched, snaps, k);
  }

  /** The handler of a binding is given some of its topic's enqueued events, each at most once: always, whatever the
      bridge has been through. */
  lemma HandledOnce(s: Sys, k: nat, t: Tid)
    requires Attainable(s) && k < N && t < |s.bus.ts|
    ensures Distinct(HandledBy(s.bus.ts[t].delivered, k))
    ensures Among(HandledBy(s.bus.ts[t].delivered, k), s.bus.ts[t].enqueued)
  {
    AttainableIsSound(s);
    ReachableIsGood(s.bus);
    SnapshotsAreSingle(s, k);
    var x := s.bus.ts[t];
    assert TopicOk(s.bus.calls, s.bus.nextSubID, x) && SnapsSingle(x.snaps, k);
    HandledOnTopic(x, k);
  }

  lemma HandledOnTopic(x: TopicState, k: nat)
    requires TopicLog(x) && Distinct(x.enqueued) && SnapsSingle(x.snaps, k)
    ensures Distinct(HandledBy(x.delivered, k)) && Among(HandledBy(x.delivered, k), x.enqueued)
  {
    assert forall i :: 0 <= i < |x.dispatched| ==> x.dispatched[i] == x.enqueued[i];
    if x.worker.Dispatching? {
      HandledMidRound(x, x.worker.env, x.worker.snap, x.worker.next, k);
    } else if x.worker.Calling? {
      HandledMidRound(x, x.worker.env, x.worker.snap, x.worker.next + 1, k);
    } else {
      assert x.worker.Receiving? || x.worker.Exited? ==> x.dispatched[..|x.snaps|] == x.dispatched;
      HandledRounds(x.dispatched[..|x.snaps|], x.snaps, k);
    }
  }
}
