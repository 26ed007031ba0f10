/** What a user of the bus can rely on, in every state that any interleaving reaches. */
module BusTheorems {
  import opened BusModel
  import opened BusSafety
  import opened BusDelivery
  import opened Options
  import opened Sums

  // ---------------------------------------------------------------- shutdown

  /** No send targets a closed channel, no channel is closed twice, no WaitGroup counter goes negative, and nobody
      registers once the wait it must precede has begun. */
  lemma NoFaultEver(s: Bus)
    requires Reachable(s)
    ensures !s.fault
  {
    ReachableIsGood(s);
  }

  /** Once `closed` is set no step creates a topic, so the channels that Close saw are all there will ever be. */
  lemma TopicsFrozen(s: Bus, step: Step)
    requires s.closed && Enabled(s, step)
    ensures SameTopics(s, Apply(s, step))
  {
    match step
    case RunPublish(p, branch) => PublishCreatesOpen(s, p, branch);
    case RunSubscribe(p) => SubscribeCreatesOpen(s, p);
    case RunWorker(_, _) =>
    case RunClose(_) =>
    case StartPublish(_, _, _) =>
    case StartSubscribe(_, _, _) =>
    case StartUnsubscribe(_, _) =>
    case StartClose =>
  }

  predicate SameTopics(s: Bus, s': Bus) {
    s'.topics == s.topics && |s'.ts| == |s.ts|
  }

  lemma PublishCreatesOpen(s: Bus, p: Pid, branch: Branch)
    requires PublishReady(s, p, branch) && s.closed
    ensures SameTopics(s, Commit(s, p, PublishMove(s, p, branch)))
  {
  }

  lemma SubscribeCreatesOpen(s: Bus, p: Pid)
    requires SubscribeReady(s, p) && s.closed
    ensures SameTopics(s, Commit(s, p, SubscribeMove(s, p)))
  {
  }

  /** The snapshot Close takes is the whole set of topics, and stays so until every channel is closed. */
  lemma SnapshotIsComplete(s: Bus)
    requires Reachable(s)
    ensures s.closer.CloseSignal? || s.closer.CloseDrain? ==> forall t :: t in s.closer.channels <==> 0 <= t < |s.ts|
    ensures s.closer.CloseChannels? ==>
      forall t :: t in s.closer.rest <==> 0 <= t < |s.ts| && !s.ts[t].chClosed
    ensures s.closer.CloseJoin? || s.closer.CloseReturned? ==> forall t :: 0 <= t < |s.ts| ==> s.ts[t].chClosed
  {
    ReachableIsGood(s);
    forall t | 0 <= t < |s.ts|
      ensures ChannelOk(s.closer, t, s.ts[t])
    {
    }
  }

  /** When Close returns every channel is closed and empty, every worker has left, no Publish is in flight, and every
      event that entered a queue has been offered to the handlers its dispatch saw. */
  lemma CloseReturnedMeansDrained(s: Bus)
    requires Reachable(s) && s.closer == CloseReturned
    ensures forall t :: 0 <= t < |s.ts| ==> Drained(s.ts[t])
    ensures forall p :: 0 <= p < |s.calls| ==> !InFlight(s.calls[p])
  {
    ReachableIsGood(s);
    forall p | 0 <= p < |s.calls|
      ensures !InFlight(s.calls[p])
    {
      SumAtLeast(s.calls, InFlightCount, p);
    }
    forall t | 0 <= t < |s.ts|
      ensures Drained(s.ts[t])
    {
      TopicDrained(s, t);
    }
  }

  ghost predicate Drained(x: TopicState) {
    && x.chClosed && x.queue == [] && x.worker == Exited
    && x.dispatched == x.enqueued
    && |x.snaps| == |x.enqueued|
    && x.delivered == Rounds(x.enqueued, x.snaps)
  }

  lemma TopicDrained(s: Bus, t: Tid)
    requires Good(s) && s.closer == CloseReturned && t < |s.ts|
    ensures Drained(s.ts[t])
  {
    SumAtLeast(s.ts, AliveCount, t);
    assert ChannelOk(s.closer, t, s.ts[t]) && TopicOk(s.calls, s.nextSubID, s.ts[t]);
    assert s.ts[t].dispatched + [] == s.ts[t].dispatched;
  }

  // ---------------------------------------------------------------- conservation, and the result of Publish

  lemma DispatchedThenQueued(s: Bus, t: Tid)
    requires Reachable(s) && t < |s.ts|
    ensures s.ts[t].dispatched + s.ts[t].queue == s.ts[t].enqueued
  {
    ReachableIsGood(s);
    assert TopicOk(s.calls, s.nextSubID, s.ts[t]);
  }

  /** A logged envelope is the event of a Publish call that has succeeded or is about to say so. */
  lemma EntryHasLanded(s: Bus, t: Tid, i: nat)
    requires Reachable(s) && t < |s.ts| && i < |s.ts[t].enqueued|
    ensures SenderOk(s.calls, s.ts[t].name, s.ts[t].enqueued[i])
  {
    ReachableIsGood(s);
    assert TopicOk(s.calls, s.nextSubID, s.ts[t]);
  }

  /** The places in the logs of all topics where the envelope of call `p` stands. */
  function Places(s: Bus, p: Pid): set<(Tid, nat)> {
    set t: Tid, i: nat | t < |s.ts| && i < |s.ts[t].enqueued| && s.ts[t].enqueued[i].call == p :: (t, i)
  }

  /** Publish returns nil exactly when its event entered the log of its topic, once; on an error it entered none. */
  lemma PublishResult(s: Bus, p: Pid)
    requires Reachable(s) && p < |s.calls| && s.calls[p].Publish? && s.calls[p].ppc.PubReturned?
    ensures s.calls[p].ppc.r == Ok ==>
      exists t: Tid, i: nat ::
        && Places(s, p) == {(t, i)}
        && t < |s.ts| && i < |s.ts[t].enqueued|
        && s.ts[t].name == s.calls[p].topic
        && s.ts[t].enqueued[i] == Envelope(p, s.calls[p].event)
    ensures s.calls[p].ppc.r != Ok ==> Places(s, p) == {}
  {
    ReachableIsGood(s);
    var c := s.calls[p];
    if c.ppc.r == Ok {
      assert LoggedOnce(c.topic, p, s.topics, s.ts);
      var t := s.topics[c.topic];
      var i: nat :| i < |s.ts[t].enqueued| && s.ts[t].enqueued[i].call == p;
      OnlyPlace(s, p, t, i);
    } else {
      forall t: Tid, i: nat | t < |s.ts| && i < |s.ts[t].enqueued|
        ensures s.ts[t].enqueued[i].call != p
      {
        assert TopicOk(s.calls, s.nextSubID, s.ts[t]);
        assert SenderOk(s.calls, s.ts[t].name, s.ts[t].enqueued[i]);
      }
    }
  }

  lemma OnlyPlace(s: Bus, p: Pid, t: Tid, i: nat)
    requires Good(s) && t < |s.ts| && i < |s.ts[t].enqueued| && s.ts[t].enqueued[i].call == p
    ensures Places(s, p) == {(t, i)}
    ensures p < |s.calls| && s.calls[p].Publish?
    ensures s.ts[t].name == s.calls[p].topic && s.ts[t].enqueued[i] == Envelope(p, s.calls[p].event)
  {
    assert TopicOk(s.calls, s.nextSubID, s.ts[t]);
    assert SenderOk(s.calls, s.ts[t].name, s.ts[t].enqueued[i]);
    forall u: Tid, j: nat | u < |s.ts| && j < |s.ts[u].enqueued| && s.ts[u].enqueued[j].call == p
      ensures u == t && j == i
    {
      assert TopicOk(s.calls, s.nextSubID, s.ts[u]);
      assert SenderOk(s.calls, s.ts[u].name, s.ts[u].enqueued[j]);
      assert s.topics[s.ts[u].name] == u && s.topics[s.ts[t].name] == t;
    }
  }

  // ---------------------------------------------------------------- who receives what

  /** The envelopes given to one registration, in order. */
  function Received(log: seq<Delivery>, id: nat): seq<Envelope> {
    if log == [] then []
    else
      var front := Received(log[..|log| - 1], id);
      var last := log[|log| - 1];
      if last.id == id then front + [last.env] else front
  }

  lemma {:induction false} ReceivedConcat(a: seq<Delivery>, b: seq<Delivery>, id: nat)
    ensures Received(a + b, id) == Received(a, id) + Received(b, id)
  {
    if b == [] {
      assert a + b == a;
    } else {
      var n := |b| - 1;
      assert (a + b)[..|a + b| - 1] == a + b[..n];
      ReceivedConcat(a, b[..n], id);
    }
  }

  /** One dispatch calls each registration of its snapshot once. */
  lemma {:induction false} ReceivedRound(env: Envelope, snap: seq<HandlerEntry>, id: nat, bound: nat)
    requires Ordered(snap, bound)
    ensures Received(Round(env, snap), id) == if HasId(snap, id) then [env] else []
  {
    if snap != [] {
      var front, last := snap[..|snap| - 1], snap[|snap| - 1];
      ReceivedRound(env, front, id, bound);
      LastIsNew(snap, bound);
      ReceivedRoundLast(env, front, last, id);
      assert snap == front + [last];
    }
  }

  lemma ReceivedRoundLast(env: Envelope, front: seq<HandlerEntry>, last: HandlerEntry, id: nat)
    requires Received(Round(env, front), id) == (if HasId(front, id) then [env] else []) && !HasId(front, last.id)
    ensures Received(Round(env, front + [last]), id) == if HasId(front + [last], id) then [env] else []
  {
    assert (front + [last])[..|front|] == front;
    ReceivedLast(Round(env, front), Delivery(last.id, last.handler, env), id);
    HasIdAppend(front, last, id);
  }

  lemma LastIsNew(snap: seq<HandlerEntry>, bound: nat)
    requires Ordered(snap, bound) && snap != []
    ensures !HasId(snap[..|snap| - 1], snap[|snap| - 1].id)
  {
  }

  lemma ReceivedLast(log: seq<Delivery>, d: Delivery, id: nat)
    ensures Received(log + [d], id) == Received(log, id) + if d.id == id then [d.env] else []
  {
    assert (log + [d])[..|log|] == log;
  }

  lemma {:induction false} ReceivedRounds(envs: seq<Envelope>, snaps: seq<seq<HandlerEntry>>, id: nat, from: nat, upto: nat, bound: nat)
    requires |envs| == |snaps| && from <= upto <= |snaps|
    requires forall i :: 0 <= i < |snaps| ==> Ordered(snaps[i], bound)
    requires forall i :: 0 <= i < |snaps| ==> (HasId(snaps[i], id) <==> from <= i < upto)
    ensures Received(Rounds(envs, snaps), id) == envs[from..upto]
  {
    if snaps != [] {
      var n := |snaps| - 1;
      ReceivedRounds(envs[..n], snaps[..n], id, AtMost(from, n), AtMost(upto, n), bound);
      ReceivedLastRound(envs, snaps, id, bound);
      RunExtends(envs, from, upto);
    }
  }

  lemma ReceivedLastRound(envs: seq<Envelope>, snaps: seq<seq<HandlerEntry>>, id: nat, bound: nat)
    requires |envs| == |snaps| > 0 && Ordered(snaps[|snaps| - 1], bound)
    ensures var n := |snaps| - 1;
      Received(Rounds(envs, snaps), id)
        == Received(Rounds(envs[..n], snaps[..n]), id) + if HasId(snaps[n], id) then [envs[n]] else []
  {
    var n := |snaps| - 1;
    ReceivedConcat(Rounds(envs[..n], snaps[..n]), Round(envs[n], snaps[n]), id);
    ReceivedRound(envs[n], snaps[n], id, bound);
  }

  /** The part of a run below the last position, and what the last position adds. */
  lemma RunExtends<T>(s: seq<T>, from: nat, upto: nat)
    requires from <= upto <= |s| && s != []
    ensures var n := |s| - 1;
      s[from..upto] == s[..n][AtMost(from, n)..AtMost(upto, n)] + if from <= n < upto then [s[n]] else []
  {
    var n := |s| - 1;
    if from <= n < upto {
      assert s[from..upto] == s[..n][from..n] + [s[n]];
    } else {
      assert upto <= n ==> s[from..upto] == s[..n][from..upto];
    }
  }

  /** The first dispatch whose snapshot a registration is in, and the one after the last so far. */
  predicate Span(s: Bus, p: Pid, t: Tid, id: nat, from: nat, upto: nat) {
    p < |s.calls| && s.calls[p].Subscribe? && t < |s.ts| &&
    match s.calls[p].spc
    case Installed(t', id', from') => t == t' && id == id' && from == from' && upto == |s.ts[t].snaps|
    case UnsubLock(t', id', from') => t == t' && id == id' && from == from' && upto == |s.ts[t].snaps|
    case UnsubFilter(t', id', from') => t == t' && id == id' && from == from' && upto == |s.ts[t].snaps|
    case Removed(t', id', from', upto') => t == t' && id == id' && from == from' && upto == upto'
    case _ => false
  }

  /** A handler receives a contiguous run of its topic's enqueue order, from the first dispatch after its install to
      the last one before its removal, without gap or repetition.  Only the dispatch in progress may still owe it an
      event. */
  lemma HandlerReceivesRun(s: Bus, p: Pid, t: Tid, id: nat, from: nat, upto: nat)
    requires Reachable(s) && Span(s, p, t, id, from, upto)
    ensures ReceivedRun(s.ts[t], id, from, upto)
  {
    ReachableIsGood(s);
    assert Registered(s.calls[p], s.ts) && TopicOk(s.calls, s.nextSubID, s.ts[t]);
    assert forall i :: 0 <= i < |s.ts[t].snaps| ==> (HasId(s.ts[t].snaps[i], id) <==> from <= i < upto);
    RunOfTopic(s.ts[t], id, from, upto, s.nextSubID);
  }

  ghost predicate ReceivedRun(x: TopicState, id: nat, from: nat, upto: nat) {
    && from <= upto <= |x.enqueued|
    && (exists k :: from <= k <= upto && upto - k <= 1 && Received(x.delivered, id) == x.enqueued[from..k])
    && (!x.worker.Dispatching? && !x.worker.Calling? ==> Received(x.delivered, id) == x.enqueued[from..upto])
  }

  lemma RunOfTopic(x: TopicState, id: nat, from: nat, upto: nat, bound: nat)
    requires TopicLog(x) && Registry(x, bound) && from <= upto <= |x.snaps|
    requires forall i :: 0 <= i < |x.snaps| ==> (HasId(x.snaps[i], id) <==> from <= i < upto)
    ensures ReceivedRun(x, id, from, upto)
  {
    if x.worker.Dispatching? {
      MidRound(x, x.worker.env, x.worker.snap, x.worker.next, id, from, upto, bound);
    } else if x.worker.Calling? {
      MidRound(x, x.worker.env, x.worker.snap, x.worker.next + 1, id, from, upto, bound);
    } else {
      var envs := x.dispatched[..|x.snaps|];
      if x.worker.Receiving? || x.worker.Exited? {
        assert |x.snaps| == |x.dispatched|;
        assert envs == x.dispatched;
      }
      ReceivedRounds(envs, x.snaps, id, from, upto, bound);
      assert envs[from..upto] == x.enqueued[from..upto];
    }
  }

  lemma MidRound(x: TopicState, env: Envelope, snap: seq<HandlerEntry>, n: nat, id: nat, from: nat, upto: nat, bound: nat)
    requires Registry(x, bound) && x.dispatched + x.queue == x.enqueued && InRound(x, env, snap, n)
    requires from <= upto <= |x.snaps|
    requires forall i :: 0 <= i < |x.snaps| ==> (HasId(x.snaps[i], id) <==> from <= i < upto)
    ensures upto <= |x.enqueued|
    ensures exists k :: from <= k <= upto && upto - k <= 1 && Received(x.delivered, id) == x.enqueued[from..k]
  {
    var last := |x.snaps| - 1;
    var snaps := x.snaps[..last] + [snap[..n]];
    assert snaps[..last] == x.snaps[..last] && Ordered(snap, bound);
    ReceivedLastRound(x.dispatched, snaps, id, bound);
    ReceivedRounds(x.dispatched[..last], x.snaps[..last], id, AtMost(from, last), AtMost(upto, last), bound);
    PrefixHasId(snap, n, id);
    var k := CutRun(x.dispatched, from, upto, HasId(snap[..n], id));
    RunOfPrefix(x.dispatched, x.queue, from, k);
  }

  lemma RunOfPrefix<T>(s: seq<T>, more: seq<T>, from: nat, k: nat)
    requires from <= k <= |s|
    ensures (s + more)[from..k] == s[from..k]
  {
  }

  function AtMost(k: nat, bound: nat): nat { if k > bound then bound else k }

  /** A run without its last position, which may be added back only when it is part of the run. */
  lemma CutRun<T>(s: seq<T>, from: nat, upto: nat, added: bool) returns (k: nat)
    requires from <= upto <= |s| && s != [] && (added ==> from < |s| == upto)
    ensures from <= k <= upto && upto - k <= 1
    ensures var n := |s| - 1;
      s[..n][AtMost(from, n)..AtMost(upto, n)] + (if added then [s[n]] else []) == s[from..k]
  {
    var n := |s| - 1;
    if added {
      k := upto;
      RunExtends(s, from, upto);
    } else {
      k := if from > n then from else AtMost(upto, n);
      assert s[..n][AtMost(from, n)..AtMost(upto, n)] == s[from..k];
    }
  }

  lemma PrefixHasId(snap: seq<HandlerEntry>, n: nat, id: nat)
    requires n <= |snap|
    ensures HasId(snap[..n], id) ==> HasId(snap, id)
  {
    if HasId(snap[..n], id) {
      var i :| 0 <= i < n && snap[..n][i].id == id;
      assert snap[i].id == id;
    }
  }

  // ---------------------------------------------------------------- order

  /** Within one dispatch handlers run in strictly increasing registration order. */
  lemma DispatchOrder(s: Bus, t: Tid, a: nat, b: nat)
    requires Reachable(s) && t < |s.ts| && a < b < |s.ts[t].delivered|
    requires s.ts[t].delivered[a].env == s.ts[t].delivered[b].env
    ensures s.ts[t].delivered[a].id < s.ts[t].delivered[b].id
  {
    ReachableIsGood(s);
    var x := s.ts[t];
    assert TopicOk(s.calls, s.nextSubID, x);
    if x.worker.Dispatching? {
      RoundOrder(x, x.worker.env, x.worker.snap, x.worker.next, a, b, s.nextSubID);
    } else if x.worker.Calling? {
      RoundOrder(x, x.worker.env, x.worker.snap, x.worker.next + 1, a, b, s.nextSubID);
    } else {
      var envs := x.dispatched[..|x.snaps|];
      if x.worker.Receiving? || x.worker.Exited? {
        assert |x.snaps| == |x.dispatched|;
        assert envs == x.dispatched;
      }
      assert forall i :: 0 <= i < |envs| ==> envs[i] == x.enqueued[i];
      RoundsOrder(envs, x.snaps, a, b, s.nextSubID);
    }
  }

  lemma RoundOrder(x: TopicState, env: Envelope, snap: seq<HandlerEntry>, n: nat, a: nat, b: nat, bound: nat)
    requires Registry(x, bound) && x.dispatched + x.queue == x.enqueued && InRound(x, env, snap, n)
    requires forall i, j :: 0 <= i < j < |x.enqueued| ==> x.enqueued[i].call != x.enqueued[j].call
    requires a < b < |x.delivered| && x.delivered[a].env == x.delivered[b].env
    ensures x.delivered[a].id < x.delivered[b].id
  {
    var last := |x.snaps| - 1;
    var snaps := x.snaps[..last] + [snap[..n]];
    assert snaps[..last] == x.snaps[..last];
    assert Ordered(snap, bound);
    assert forall i :: 0 <= i < |x.dispatched| ==> x.dispatched[i] == x.enqueued[i];
    RoundsOrder(x.dispatched, snaps, a, b, bound);
  }

  lemma {:induction false} RoundsOrder(envs: seq<Envelope>, snaps: seq<seq<HandlerEntry>>, a: nat, b: nat, bound: nat)
    requires |envs| == |snaps| && a < b < |Rounds(envs, snaps)|
    requires forall i :: 0 <= i < |snaps| ==> Ordered(snaps[i], bound)
    requires forall i, j :: 0 <= i < j < |envs| ==> envs[i].call != envs[j].call
    requires Rounds(envs, snaps)[a].env == Rounds(envs, snaps)[b].env
    ensures Rounds(envs, snaps)[a].id < Rounds(envs, snaps)[b].id
  {
    var n := |snaps| - 1;
    var front := Rounds(envs[..n], snaps[..n]);
    RoundShape(envs[n], snaps[n]);
    if b < |front| {
      RoundsOrder(envs[..n], snaps[..n], a, b, bound);
    } else if a < |front| {
      RoundsFrom(envs[..n], snaps[..n], a);
    }
  }

  lemma {:induction false} RoundShape(env: Envelope, snap: seq<HandlerEntry>)
    ensures |Round(env, snap)| == |snap|
    ensures forall i :: 0 <= i < |snap| ==> Round(env, snap)[i] == Delivery(snap[i].id, snap[i].handler, env)
  {
    if snap != [] {
      RoundShape(env, snap[..|snap| - 1]);
    }
  }

  lemma {:induction false} RoundsFrom(envs: seq<Envelope>, snaps: seq<seq<HandlerEntry>>, a: nat)
    requires |envs| == |snaps| && a < |Rounds(envs, snaps)|
    ensures Rounds(envs, snaps)[a].env in envs
  {
    var n := |snaps| - 1;
    RoundShape(envs[n], snaps[n]);
    if a < |Rounds(envs[..n], snaps[..n])| {
      RoundsFrom(envs[..n], snaps[..n], a);
    }
  }

  ghost predicate Grows(s: Bus, s': Bus, t: Tid)
    requires t < |s.ts|
  {
    t < |s'.ts| && s.ts[t].enqueued <= s'.ts[t].enqueued && s'.ts[t].name == s.ts[t].name
  }

  /** No step takes an event out of a log or reorders it. */
  lemma LogsOnlyGrow(s: Bus, step: Step, t: Tid)
    requires Enabled(s, step) && t < |s.ts|
    ensures Grows(s, Apply(s, step), t)
  {
    match step
    case RunPublish(p, branch) => PublishGrows(s, p, branch, t);
    case RunSubscribe(p) => SubscribeGrows(s, p, t);
    case RunWorker(u, budget) => WorkerGrows(s, u, budget, t);
    case RunClose(u) => CloseGrows(s, u, t);
    case StartPublish(_, _, w) => AwaitGrows(s, w, OnPublish(|s.calls|), t);
    case StartSubscribe(_, _, w) => AwaitGrows(s, w, OnSubscribe(|s.calls|), t);
    case StartUnsubscribe(p, w) => AwaitGrows(s, w, OnUnsubscribe(p), t);
    case StartClose =>
  }

  lemma WorkerGrows(s: Bus, u: Tid, budget: nat, t: Tid)
    requires WorkerReady(s, u) && t < |s.ts|
    ensures Grows(s, Apply(s, RunWorker(u, budget)), t)
  {
    assert WorkerTurn(s, u, budget).x.enqueued == s.ts[u].enqueued;
  }

  lemma CloseGrows(s: Bus, u: Tid, t: Tid)
    requires CloseReady(s, u) && t < |s.ts|
    ensures Grows(s, CloseStep(s, u), t)
  {
  }

  lemma AwaitGrows(s: Bus, w: Waiter, n: Nested, t: Tid)
    requires CanCall(s, w) && t < |s.ts|
    ensures Grows(s, Await(s, w, n), t)
  {
  }

  lemma PublishGrows(s: Bus, p: Pid, branch: Branch, t: Tid)
    requires PublishReady(s, p, branch) && t < |s.ts|
    ensures Grows(s, Commit(s, p, PublishMove(s, p, branch)), t)
  {
    PublishShape(s, p, branch);
    CommitGrows(s, p, PublishMove(s, p, branch), t);
  }

  lemma SubscribeGrows(s: Bus, p: Pid, t: Tid)
    requires SubscribeReady(s, p) && t < |s.ts|
    ensures Grows(s, Commit(s, p, SubscribeMove(s, p)), t)
  {
    SubscribeShape(s, p);
    CommitGrows(s, p, SubscribeMove(s, p), t);
  }

  lemma CommitGrows(s: Bus, p: Pid, m: Move, t: Tid)
    requires p < |s.calls| && t < |s.ts| && (m.change.Put? ==> m.change.t < |s.ts|)
    requires m.change.Put? ==>
      m.change.x.name == s.ts[m.change.t].name && s.ts[m.change.t].enqueued <= m.change.x.enqueued
    ensures Grows(s, Commit(s, p, m), t)
  {
  }

  lemma {:induction false} LogsOnlyGrowOverRuns(s: Bus, schedule: seq<Step>, t: Tid)
    requires Exec(s, schedule).Some? && t < |s.ts|
    ensures Grows(s, Exec(s, schedule).value, t)
  {
    if schedule != [] {
      var before := schedule[..|schedule| - 1];
      LogsOnlyGrowOverRuns(s, before, t);
      LogsOnlyGrow(Exec(s, before).value, schedule[|schedule| - 1], t);
    }
  }

  /** A Publish that had returned before another one was called stands before it in the log of their topic: one
      publisher's sequential calls are delivered in the order it issued them. */
  lemma PublisherOrder(s: Bus, schedule: seq<Step>, t: Tid, i: nat, j: nat)
    requires Reachable(s) && Exec(s, schedule).Some? && t < |s.ts|
    requires var s' := Exec(s, schedule).value;
      t < |s'.ts| && i < |s'.ts[t].enqueued| && j < |s'.ts[t].enqueued|
    requires var s' := Exec(s, schedule).value;
      var p, q := s'.ts[t].enqueued[i].call, s'.ts[t].enqueued[j].call;
      p < |s.calls| <= q && Landed(s.calls[p]) && s.calls[p].topic == s.ts[t].name
    ensures i < j
  {
    ReachableIsGood(s);
    LogsOnlyGrowOverRuns(s, schedule, t);
    var s' := Exec(s, schedule).value;
    var p := s'.ts[t].enqueued[i].call;
    assert LoggedOnce(s.calls[p].topic, p, s.topics, s.ts);
    var k :| 0 <= k < |s.ts[t].enqueued| && s.ts[t].enqueued[k].call == p;
    assert s'.ts[t].enqueued[k] == s.ts[t].enqueued[k];
    ReachableExtends(s, schedule);
    ReachableIsGood(s');
    assert TopicOk(s'.calls, s'.nextSubID, s'.ts[t]);
    assert i == k;
    if j < |s.ts[t].enqueued| {
      LoggedCallStarted(s, t, j);
    }
  }

  lemma LoggedCallStarted(s: Bus, t: Tid, i: nat)
    requires Good(s) && t < |s.ts| && i < |s.ts[t].enqueued|
    ensures s.ts[t].enqueued[i].call < |s.calls|
  {
    assert TopicOk(s.calls, s.nextSubID, s.ts[t]);
    assert SenderOk(s.calls, s.ts[t].name, s.ts[t].enqueued[i]);
  }

  lemma StepReachable(s: Bus, step: Step)
    requires Reachable(s) && Enabled(s, step)
    ensures Reachable(Apply(s, step))
  {
    var size: int, schedule: seq<Step> :| Exec(New(size), schedule) == Some(s);
    assert (schedule + [step])[..|schedule|] == schedule;
    assert Exec(New(size), schedule + [step]) == Some(Apply(s, step));
  }

  lemma ReachableExtends(s: Bus, schedule: seq<Step>)
    requires Reachable(s) && Exec(s, schedule).Some?
    ensures Reachable(Exec(s, schedule).value)
  {
    var size: int, before: seq<Step> :| Exec(New(size), before) == Some(s);
    ExecConcat(New(size), before, schedule);
  }

  lemma {:induction false} ExecConcat(s: Bus, a: seq<Step>, b: seq<Step>)
    requires Exec(s, a).Some?
    ensures Exec(s, a + b) == Exec(Exec(s, a).value, b)
  {
    if b == [] {
      assert a + b == a;
    } else {
      var n := |b| - 1;
      ExecConcat(s, a, b[..n]);
      assert (a + b)[..|a + b| - 1] == a + b[..n] && (a + b)[|a + b| - 1] == b[n];
    }
  }
}
