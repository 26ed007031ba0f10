/**
 Subscriptions that race with Close.  Subscribe promises that a subscription does not land on a topic whose worker has
 gone (bus.go:227-234).  It gives up `b.mu` before it installs its handler, and Close never takes `ts.mu`, so it can:
 here are a run in which it does, what a registration is given when Close has returned, and exactly when a
 registration will never be given anything.
 */
module BusLateSubscribe {
  import opened Messages
  import opened Options
  import opened BusModel
  import opened BusSafety
  import opened BusDelivery
  import opened BusHistory
  import opened BusTheorems
  import opened BusShutdown
  import opened BusTermination
  import opened Sums

  // ---------------------------------------------------------------- a run that breaks the promise

  /** A bus with one topic and one Subscribe call for it. */
  function Solo(pc: SubPC, mu: Holder, closer: ClosePC, x: TopicState): Bus {
    var closed := closer.CloseSignal? || DrainBegun(closer);
    Bus(DEFAULT_TOPIC_BUFFER_SIZE, closed, DrainBegun(closer), mu, map["t" := 0], [x], 0,
        if x.worker.Exited? then 0 else 1, if pc.Installed? then 1 else 0,
        [Subscribe("t", Some(7), Outside, pc)], closer, false)
  }

  const HELD := FreshTopic("t").(lock := Writing(0))
  const HELD_CLOSED := HELD.(chClosed := true)
  const HELD_DEAD := HELD_CLOSED.(worker := Exited)

  lemma Then(s: Bus, step: Step, s': Bus)
    requires Reachable(s) && Enabled(s, step) && Apply(s, step) == s'
    ensures Reachable(s')
  {
    StepReachable(s, step);
  }

  lemma SubscribeStarts() returns (s: Bus)
    ensures Reachable(s) && s == New(0).(calls := [Subscribe("t", Some(7), Outside, SubCheck)], mu := ByCall(0))
  {
    var s0 := New(0);
    assert Exec(s0, []) == Some(s0);
    var s1 := s0.(calls := [Subscribe("t", Some(7), Outside, SubEntry)]);
    Then(s0, StartSubscribe("t", Some(7), Outside), s1);
    var s2 := s0.(calls := [Subscribe("t", Some(7), Outside, SubLock)]);
    Then(s1, RunSubscribe(0), s2);
    s := s0.(calls := [Subscribe("t", Some(7), Outside, SubCheck)], mu := ByCall(0));
    Then(s2, RunSubscribe(0), s);
  }

  /** Subscribe gets `ts.mu` and gives up `b.mu`, and Close is called. */
  lemma SubscribeStops()
    ensures Reachable(Solo(SubInstall(0), Free, CloseLock, HELD))
  {
    var s := SubscribeStarts();
    Then(s, RunSubscribe(0), Solo(SubLockTopic(0), ByCall(0), CloseIdle, FreshTopic("t")));
    Then(Solo(SubLockTopic(0), ByCall(0), CloseIdle, FreshTopic("t")), RunSubscribe(0),
         Solo(SubHandOff(0), ByCall(0), CloseIdle, HELD));
    Then(Solo(SubHandOff(0), ByCall(0), CloseIdle, HELD), RunSubscribe(0), Solo(SubInstall(0), Free, CloseIdle, HELD));
    Then(Solo(SubInstall(0), Free, CloseIdle, HELD), StartClose, Solo(SubInstall(0), Free, CloseLock, HELD));
  }

  lemma CloseOvertakes()
    requires Reachable(Solo(SubInstall(0), Free, CloseLock, HELD))
    ensures Reachable(Solo(SubInstall(0), Free, CloseChannels({0}), HELD))
  {
    var pc := SubInstall(0);
    Then(Solo(pc, Free, CloseLock, HELD), RunClose(0), Solo(pc, ByClose, CloseMark, HELD));
    assert map["t" := 0].Values == {0} by { assert map["t" := 0]["t"] == 0; }
    Then(Solo(pc, ByClose, CloseMark, HELD), RunClose(0), Solo(pc, Free, CloseSignal({0}), HELD));
    Then(Solo(pc, Free, CloseSignal({0}), HELD), RunClose(0), Solo(pc, Free, CloseDrain({0}), HELD));
    Then(Solo(pc, Free, CloseDrain({0}), HELD), RunClose(0), Solo(pc, Free, CloseChannels({0}), HELD));
  }

  lemma CloseEnds()
    requires Reachable(Solo(SubInstall(0), Free, CloseChannels({0}), HELD))
    ensures Reachable(Solo(SubInstall(0), Free, CloseReturned, HELD_DEAD))
  {
    var pc := SubInstall(0);
    ChannelCloses();
    Then(Solo(pc, Free, CloseChannels({}), HELD_CLOSED), RunClose(0), Solo(pc, Free, CloseJoin, HELD_CLOSED));
    WorkerLeaves();
    Then(Solo(pc, Free, CloseJoin, HELD_DEAD), RunClose(0), Solo(pc, Free, CloseReturned, HELD_DEAD));
  }

  lemma ChannelCloses()
    requires Reachable(Solo(SubInstall(0), Free, CloseChannels({0}), HELD))
    ensures Reachable(Solo(SubInstall(0), Free, CloseChannels({}), HELD_CLOSED))
  {
    var s := Solo(SubInstall(0), Free, CloseChannels({0}), HELD);
    assert 0 in s.closer.rest && {0} - {0} == {} && s.ts[0 := HELD_CLOSED] == [HELD_CLOSED];
    assert CloseStep(s, 0) == Solo(SubInstall(0), Free, CloseChannels({}), HELD_CLOSED);
    StepReachable(s, RunClose(0));
  }

  lemma WorkerLeaves()
    requires Reachable(Solo(SubInstall(0), Free, CloseJoin, HELD_CLOSED))
    ensures Reachable(Solo(SubInstall(0), Free, CloseJoin, HELD_DEAD))
  {
    Then(Solo(SubInstall(0), Free, CloseJoin, HELD_CLOSED), RunWorker(0, 0),
         Solo(SubInstall(0), Free, CloseJoin, HELD_DEAD));
  }

  /** The promise fails: Close has closed the channel while Subscribe holds `ts.mu`, has seen the worker off and has
      returned; then Subscribe installs its handler and succeeds. */
  lemma LandsOnDeadTopic() returns (s: Bus, s': Bus)
    ensures Reachable(s) && Enabled(s, RunSubscribe(0)) && s' == Apply(s, RunSubscribe(0))
    ensures s.closer == CloseReturned && s.calls[0].spc == SubInstall(0)
    ensures s.ts[0].lock == Writing(0) && s.ts[0].chClosed && s.ts[0].worker == Exited
    ensures s'.calls == [s.calls[0].(spc := Installed(0, 1, 0))]
    ensures s'.ts == [s.ts[0].(lock := Open, entries := [HandlerEntry(1, 7)])]
  {
    SubscribeStops();
    CloseOvertakes();
    CloseEnds();
    s := Solo(SubInstall(0), Free, CloseReturned, HELD_DEAD);
    s' := InstallsLate(s);
  }

  lemma InstallsLate(s: Bus) returns (s': Bus)
    requires s == Solo(SubInstall(0), Free, CloseReturned, HELD_DEAD)
    ensures Enabled(s, RunSubscribe(0)) && s' == Apply(s, RunSubscribe(0))
    ensures s'.calls == [s.calls[0].(spc := Installed(0, 1, 0))]
    ensures s'.ts == [s.ts[0].(lock := Open, entries := [HandlerEntry(1, 7)])]
  {
    s' := Apply(s, RunSubscribe(0));
    assert [] + [HandlerEntry(1, 7)] == [HandlerEntry(1, 7)];
  }

  // ---------------------------------------------------------------- what it is given when Close has returned

  /** When Close has returned, a registration was given exactly the events from its install to its removal; one that
      stands was given everything enqueued from its first dispatch on. */
  lemma GivenWhenClosed(s: Bus, p: Pid, t: Tid, id: nat, from: nat, upto: nat)
    requires Reachable(s) && s.closer == CloseReturned && Span(s, p, t, id, from, upto)
    ensures from <= upto <= |s.ts[t].enqueued| && (s.calls[p].spc.Installed? ==> upto == |s.ts[t].enqueued|)
    ensures Received(s.ts[t].delivered, id) == s.ts[t].enqueued[from..upto]
    ensures Received(s.ts[t].delivered, id) == [] <==> from == upto
  {
    HandlerReceivesRun(s, p, t, id, from, upto);
    CloseReturnedMeansDrained(s);
    assert Drained(s.ts[t]);
  }

  ghost predicate Stands(s: Bus, p: Pid, t: Tid, id: nat, from: nat) {
    p < |s.calls| && s.calls[p].Subscribe? && s.calls[p].spc == Installed(t, id, from) && t < |s.ts|
  }

  /** A Subscribe that has returned is given, if it stays until Close returns, every event whose dispatch has not begun
      by then and every later one; as long as `closed` is not set its topic is alive. */
  lemma QueuedAndLaterAreGiven(s: Bus, schedule: seq<Step>, p: Pid, t: Tid, id: nat, from: nat)
    requires Reachable(s) && Stands(s, p, t, id, from) && Exec(s, schedule).Some?
    requires var s' := Exec(s, schedule).value; s'.closer == CloseReturned && Stands(s', p, t, id, from)
    ensures !s.closed ==> !s.ts[t].chClosed && !s.ts[t].worker.Exited?
    ensures from <= |s.ts[t].snaps| && GivenFrom(s, Exec(s, schedule).value, t, id, |s.ts[t].snaps|)
  {
    var s' := Exec(s, schedule).value;
    StandsInLog(s, p, t, id, from);
    LogsOnlyGrowOverRuns(s, schedule, t);
    ReachableExtends(s, schedule);
    GivenWhenClosed(s', p, t, id, from, |s'.ts[t].snaps|);
    TailOfTail(s'.ts[t].enqueued, from, |s.ts[t].snaps|);
  }

  lemma TailOfTail<T>(log: seq<T>, from: nat, k: nat)
    requires from <= k <= |log|
    ensures log[from..][k - from..] == log[k..]
  {
  }

  lemma StandsInLog(s: Bus, p: Pid, t: Tid, id: nat, from: nat)
    requires Reachable(s) && Stands(s, p, t, id, from)
    ensures from <= |s.ts[t].snaps| <= |s.ts[t].enqueued|
    ensures !s.closed ==> !s.ts[t].chClosed && !s.ts[t].worker.Exited?
  {
    ReachableIsGood(s);
    assert Registered(s.calls[p], s.ts) && ChannelOk(s.closer, t, s.ts[t]) && TopicOk(s.calls, s.nextSubID, s.ts[t]);
  }

  /** The last events given are all those enqueued from the `k`-th on, those of the earlier state among them. */
  ghost predicate GivenFrom(s: Bus, s': Bus, t: Tid, id: nat, k: nat)
    requires t < |s.ts|
  {
    t < |s'.ts| && s.ts[t].enqueued <= s'.ts[t].enqueued && k <= |s.ts[t].enqueued| &&
    var given, due := Received(s'.ts[t].delivered, id), s'.ts[t].enqueued[k..];
    |due| <= |given| && given[|given| - |due|..] == due
  }

  // ---------------------------------------------------------------- exactly when it is given nothing, ever

  /** A Publish that is registered and has not yet found whether its event goes in. */
  predicate Undecided(c: Proc, topic: string) {
    c.Publish? && c.topic == topic && (c.ppc.PubLockTopic? || c.ppc.PubFind? || c.ppc.PubTrySend? || c.ppc.PubBlocked?)
  }

  /** No new Publish will be let in. */
  predicate Shut(s: Bus) { s.closed || s.closer == CloseMark }

  /** Nothing waits to be dispatched on the topic, and nothing will be enqueued. */
  ghost predicate Over(s: Bus, t: Tid)
    requires t < |s.ts|
  {
    && Shut(s) && |s.ts[t].enqueued| == |s.ts[t].snaps|
    && AllDecided(s.calls, s.ts[t].name)
  }

  predicate NothingGiven(s: Bus, t: Tid, id: nat) { t < |s.ts| && Received(s.ts[t].delivered, id) == [] }

  /** In no run will the registration be given an event. */
  ghost predicate Silent(s: Bus, t: Tid, id: nat) {
    forall schedule :: Exec(s, schedule).Some? ==> NothingGiven(Exec(s, schedule).value, t, id)
  }

  /** What stays true of a topic that is over, and of a registration on it. */
  ghost predicate StaysOver(s: Bus, t: Tid, name: string, p: Pid, id: nat, from: nat) {
    && Reachable(s) && Shut(s)
    && t < |s.ts| && s.ts[t].name == name && |s.ts[t].enqueued| == from
    && AllDecided(s.calls, name)
    && p < |s.calls| && Placed(s.calls[p], t, id, from)
  }

  predicate Placed(c: Proc, t: Tid, id: nat, from: nat) {
    c.Subscribe? &&
    match c.spc
    case Installed(t', id', from') => t' == t && id' == id && from' == from
    case UnsubLock(t', id', from') => t' == t && id' == id && from' == from
    case UnsubFilter(t', id', from') => t' == t && id' == id && from' == from
    case Removed(t', id', from', _) => t' == t && id' == id && from' == from
    case _ => false
  }

  lemma OverGivesNothing(s: Bus, t: Tid, name: string, p: Pid, id: nat, from: nat)
    requires StaysOver(s, t, name, p, id, from)
    ensures NothingGiven(s, t, id)
  {
    var pc := s.calls[p].spc;
    var upto := if pc.Removed? then pc.upto else |s.ts[t].snaps|;
    HandlerReceivesRun(s, p, t, id, from, upto);
  }

  /** A Publish becomes undecided only by registering, which needs `b.mu` and finds `closed` not set. */
  lemma NobodyRegisters(s: Bus, p: Pid, branch: Branch, name: string)
    requires BusLock(s.calls, s.mu, s.closer) && Shut(s) && PublishReady(s, p, branch) && !Undecided(s.calls[p], name)
    ensures !Undecided(PublishMove(s, p, branch).call, name)
  {
    assert HoldsBus(s.calls[p]) <==> s.mu == ByCall(p);
  }

  ghost predicate AllDecided(calls: seq<Proc>, name: string) {
    forall q :: 0 <= q < |calls| ==> !Undecided(calls[q], name)
  }

  lemma StepKeepsDecided(s: Bus, step: Step, name: string)
    requires BusLock(s.calls, s.mu, s.closer) && Shut(s) && Enabled(s, step) && AllDecided(s.calls, name)
    ensures AllDecided(Apply(s, step).calls, name)
  {
    if step.RunPublish? {
      NobodyRegisters(s, step.p, step.branch, name);
      assert Apply(s, step).calls == s.calls[step.p := PublishMove(s, step.p, step.branch).call];
    } else {
      forall q | 0 <= q < |Apply(s, step).calls|
        ensures !Undecided(Apply(s, step).calls[q], name)
      {
        OthersStayDecided(s, step, q, name);
      }
    }
  }

  lemma OthersStayDecided(s: Bus, step: Step, q: Pid, name: string)
    requires Enabled(s, step) && !step.RunPublish? && q < |Apply(s, step).calls|
    requires q < |s.calls| ==> !Undecided(s.calls[q], name)
    ensures !Undecided(Apply(s, step).calls[q], name)
  {
    if q < |s.calls| {
      StepSuccessor(s, step, q);
    } else {
      AddedCall(s, step);
    }
  }

  lemma ShutStays(s: Bus, step: Step)
    requires Shut(s) && Enabled(s, step)
    ensures Shut(Apply(s, step))
  {
    if step.RunClose? { assert s.closer == CloseMark || CloseStep(s, step.t).closed == s.closed; }
  }

  /** Only an undecided Publish to a topic adds to its log. */
  lemma StepEnqueues(s: Bus, step: Step, t: Tid)
    requires Targets(s.calls, s.ts) && Enabled(s, step) && t < |s.ts|
    ensures KeepsLog(s, Apply(s, step), t) || (step.RunPublish? && Undecided(s.calls[step.p], s.ts[t].name))
  {
    match step
    case RunPublish(p, branch) =>
      assert TargetOk(s.calls[p], s.ts);
      PublishEnqueues(s, p, branch, t);
    case RunSubscribe(p) => SubscribeEnqueues(s, p, t);
    case _ => OthersEnqueueNothing(s, step, t);
  }

  lemma OthersEnqueueNothing(s: Bus, step: Step, t: Tid)
    requires Enabled(s, step) && !step.RunPublish? && !step.RunSubscribe? && t < |s.ts|
    ensures KeepsLog(s, Apply(s, step), t)
  {
    match step
    case RunWorker(u, budget) => assert WorkerTurn(s, u, budget).x.enqueued == s.ts[u].enqueued;
    case RunClose(u) => CloseEnqueuesNothing(s, u, t);
    case StartPublish(_, _, w) => AwaitEnqueuesNothing(s, w, OnPublish(|s.calls|), t);
    case StartSubscribe(_, _, w) => AwaitEnqueuesNothing(s, w, OnSubscribe(|s.calls|), t);
    case StartUnsubscribe(p, w) => AwaitEnqueuesNothing(s, w, OnUnsubscribe(p), t);
    case StartClose =>
  }

  lemma CloseEnqueuesNothing(s: Bus, u: Tid, t: Tid)
    requires CloseReady(s, u) && t < |s.ts|
    ensures KeepsLog(s, CloseStep(s, u), t)
  {
  }

  lemma AwaitEnqueuesNothing(s: Bus, w: Waiter, n: Nested, t: Tid)
    requires CanCall(s, w) && t < |s.ts|
    ensures KeepsLog(s, Await(s, w, n), t)
  {
  }

  lemma PublishEnqueues(s: Bus, p: Pid, branch: Branch, t: Tid)
    requires PublishReady(s, p, branch) && TargetOk(s.calls[p], s.ts) && t < |s.ts|
    ensures KeepsLog(s, Commit(s, p, PublishMove(s, p, branch)), t) || Undecided(s.calls[p], s.ts[t].name)
  {
    PublishShape(s, p, branch);
  }

  lemma SubscribeEnqueues(s: Bus, p: Pid, t: Tid)
    requires SubscribeReady(s, p) && t < |s.ts|
    ensures KeepsLog(s, Commit(s, p, SubscribeMove(s, p)), t)
  {
    SubscribeShape(s, p);
  }

  predicate KeepsLog(s: Bus, s': Bus, t: Tid)
    requires t < |s.ts|
  {
    t < |s'.ts| && s'.ts[t].name == s.ts[t].name && s'.ts[t].enqueued == s.ts[t].enqueued
  }

  lemma PlacedStays(s: Bus, step: Step, p: Pid, t: Tid, id: nat, from: nat)
    requires Enabled(s, step) && p < |s.calls| && Placed(s.calls[p], t, id, from)
    ensures p < |Apply(s, step).calls| && Placed(Apply(s, step).calls[p], t, id, from)
  {
    StepSuccessor(s, step, p);
  }

  lemma StepKeepsOver(s: Bus, step: Step, t: Tid, name: string, p: Pid, id: nat, from: nat)
    requires StaysOver(s, t, name, p, id, from) && Enabled(s, step)
    ensures StaysOver(Apply(s, step), t, name, p, id, from)
  {
    ReachableIsGood(s);
    StepReachable(s, step);
    ShutStays(s, step);
    StepKeepsDecided(s, step, name);
    StepEnqueues(s, step, t);
    PlacedStays(s, step, p, t, id, from);
  }

  lemma {:induction false} RunKeepsOver(s: Bus, schedule: seq<Step>, t: Tid, name: string, p: Pid, id: nat, from: nat)
    requires StaysOver(s, t, name, p, id, from) && Exec(s, schedule).Some?
    ensures StaysOver(Exec(s, schedule).value, t, name, p, id, from)
  {
    if schedule != [] {
      var before := schedule[..|schedule| - 1];
      RunKeepsOver(s, before, t, name, p, id, from);
      StepKeepsOver(Exec(s, before).value, schedule[|schedule| - 1], t, name, p, id, from);
    }
  }

  lemma OverIsSilent(s: Bus, p: Pid, t: Tid, id: nat, from: nat)
    requires Reachable(s) && Stands(s, p, t, id, from) && from == |s.ts[t].snaps| && Over(s, t)
    ensures Silent(s, t, id)
  {
    forall schedule: seq<Step> | Exec(s, schedule).Some?
      ensures NothingGiven(Exec(s, schedule).value, t, id)
    {
      RunKeepsOver(s, schedule, t, s.ts[t].name, p, id, from);
      OverGivesNothing(Exec(s, schedule).value, t, s.ts[t].name, p, id, from);
    }
  }

  // ---------------------------------------------------------------- a run that gives it an event

  /** A Publish that is registered and has not reached the blocking select. */
  predicate Registering(c: Proc, topic: string) {
    c.Publish? && c.topic == topic && (c.ppc.PubLockTopic? || c.ppc.PubFind? || c.ppc.PubTrySend?)
  }

  /** The registration has an event to come: one that is enqueued, or that of call `q`. */
  ghost predicate Pledged(s: Bus, p: Pid, t: Tid, id: nat, from: nat, q: Pid) {
    && Reachable(s) && Stands(s, p, t, id, from)
    && (|s.ts[t].enqueued| > from || (q < |s.calls| && Registering(s.calls[q], s.ts[t].name)))
  }

  lemma StandsStays(s: Bus, step: Step, p: Pid, t: Tid, id: nat, from: nat)
    requires Enabled(s, step) && Stands(s, p, t, id, from) && !step.StartUnsubscribe?
    ensures Stands(Apply(s, step), p, t, id, from)
  {
    StepSuccessor(s, step, p);
    LogsOnlyGrow(s, step, t);
  }

  /** The events a standing registration may still get are those from `from` on; a full queue holds one of them. */
  lemma FromIsBounded(s: Bus, p: Pid, t: Tid, id: nat, from: nat)
    requires Reachable(s) && Stands(s, p, t, id, from)
    ensures from + |s.ts[t].queue| <= |s.ts[t].enqueued| && s.cap > 0
  {
    ReachableIsGood(s);
    assert Registered(s.calls[p], s.ts) && TopicOk(s.calls, s.nextSubID, s.ts[t]);
  }

  /** The non-blocking send of a Publish to this topic finds the queue full or enqueues. */
  lemma RegisteringMoves(s: Bus, q: Pid, branch: Branch, t: Tid)
    requires PublishReady(s, q, branch) && t < |s.ts| && Registering(s.calls[q], s.ts[t].name)
    requires TopicMap(s.topics, s.ts) && TargetOk(s.calls[q], s.ts) && !PublishMove(s, q, branch).fault
    ensures var s' := Commit(s, q, PublishMove(s, q, branch));
      || Registering(s'.calls[q], s.ts[t].name) || |s.ts[t].queue| >= s.cap
      || (t < |s'.ts| && |s'.ts[t].enqueued| > |s.ts[t].enqueued|)
  {
  }

  lemma StepKeepsPledged(s: Bus, step: Step, p: Pid, t: Tid, id: nat, from: nat, q: Pid)
    requires Pledged(s, p, t, id, from, q) && Enabled(s, step) && !step.StartUnsubscribe?
    ensures Pledged(Apply(s, step), p, t, id, from, q)
  {
    StepReachable(s, step);
    StandsStays(s, step, p, t, id, from);
    LogsOnlyGrow(s, step, t);
    if |s.ts[t].enqueued| <= from {
      FromIsBounded(s, p, t, id, from);
      if step.RunPublish? && step.p == q {
        RegisteringEnds(s, q, step.branch, t);
      } else {
        StepSuccessor(s, step, q);
      }
    }
  }

  lemma RegisteringEnds(s: Bus, q: Pid, branch: Branch, t: Tid)
    requires Reachable(s) && PublishReady(s, q, branch) && t < |s.ts| && Registering(s.calls[q], s.ts[t].name)
    ensures var s' := Commit(s, q, PublishMove(s, q, branch));
      || Registering(s'.calls[q], s.ts[t].name) || |s.ts[t].queue| >= s.cap
      || (t < |s'.ts| && |s'.ts[t].enqueued| > |s.ts[t].enqueued|)
  {
    ReachableIsGood(s);
    assert TargetOk(s.calls[q], s.ts);
    PublishFaultless(s, q, branch);
    RegisteringMoves(s, q, branch, t);
  }

  lemma {:induction false} RunKeepsPledged(s: Bus, schedule: seq<Step>, p: Pid, t: Tid, id: nat, from: nat, q: Pid)
    requires Pledged(s, p, t, id, from, q) && Exec(s, schedule).Some? && NoArrivals(schedule)
    ensures Pledged(Exec(s, schedule).value, p, t, id, from, q)
  {
    if schedule != [] {
      var before := schedule[..|schedule| - 1];
      RunKeepsPledged(s, before, p, t, id, from, q);
      StepKeepsPledged(Exec(s, before).value, schedule[|schedule| - 1], p, t, id, from, q);
    }
  }

  /** Once Close has returned the pledged event has been given. */
  lemma PledgeIsPaid(s: Bus, p: Pid, t: Tid, id: nat, from: nat, q: Pid)
    requires Pledged(s, p, t, id, from, q) && s.closer == CloseReturned
    ensures !NothingGiven(s, t, id)
  {
    CloseReturnedMeansDrained(s);
    assert q >= |s.calls| || !InFlight(s.calls[q]);
    GivenWhenClosed(s, p, t, id, from, |s.ts[t].snaps|);
  }

  /** The run in which nothing more arrives and Close returns. */
  lemma PledgedIsGiven(s: Bus, p: Pid, t: Tid, id: nat, from: nat, q: Pid) returns (schedule: seq<Step>)
    requires Pledged(s, p, t, id, from, q)
    ensures Gives(s, schedule, t, id)
    decreases if s.closer == CloseIdle then 1 else 0
  {
    if s.closer == CloseIdle {
      StepKeepsPledged(s, StartClose, p, t, id, from, q);
      var rest := PledgedIsGiven(Apply(s, StartClose), p, t, id, from, q);
      schedule := GivesCons(s, StartClose, rest, t, id);
    } else {
      schedule := CloseCanAlwaysReturn(s);
      RunKeepsPledged(s, schedule, p, t, id, from, q);
      PledgeIsPaid(Exec(s, schedule).value, p, t, id, from, q);
    }
  }

  ghost predicate Gives(s: Bus, schedule: seq<Step>, t: Tid, id: nat) {
    Exec(s, schedule).Some? && !NothingGiven(Exec(s, schedule).value, t, id)
  }

  lemma GivesCons(s: Bus, step: Step, rest: seq<Step>, t: Tid, id: nat) returns (schedule: seq<Step>)
    requires Enabled(s, step) && Gives(Apply(s, step), rest, t, id)
    ensures Gives(s, schedule, t, id)
  {
    schedule := [step] + rest;
    ExecCons(s, step, rest);
  }

  // ---------------------------------------------------------------- every registration that is not over gets one

  /** A blocked Publish to an empty queue can send. */
  lemma BlockedCanSend(s: Bus, p: Pid, t: Tid, id: nat, from: nat, q: Pid)
    requires Reachable(s) && Stands(s, p, t, id, from) && |s.ts[t].enqueued| == from
    requires q < |s.calls| && Undecided(s.calls[q], s.ts[t].name) && s.calls[q].ppc.PubBlocked?
    ensures Enabled(s, RunPublish(q, Send)) && Pledged(Apply(s, RunPublish(q, Send)), p, t, id, from, q)
  {
    FromIsBounded(s, p, t, id, from);
    SendEnqueues(s, q, t);
    StandsStays(s, RunPublish(q, Send), p, t, id, from);
    StepReachable(s, RunPublish(q, Send));
  }

  lemma SendEnqueues(s: Bus, q: Pid, t: Tid)
    requires Reachable(s) && t < |s.ts| && |s.ts[t].queue| < s.cap
    requires q < |s.calls| && Undecided(s.calls[q], s.ts[t].name) && s.calls[q].ppc.PubBlocked?
    ensures PublishReady(s, q, Send)
    ensures var s' := Commit(s, q, PublishMove(s, q, Send)); t < |s'.ts| && |s'.ts[t].enqueued| > |s.ts[t].enqueued|
  {
    ReachableIsGood(s);
    assert TargetOk(s.calls[q], s.ts) && s.calls[q].ppc.t == t;
    PublishFaultless(s, q, Send);
  }

  /** Whoever is past the entry checks of Subscribe has named a topic. */
  predicate Named(c: Proc) {
    c.Subscribe? && !c.spc.SubEntry? && !c.spc.SubFailed? ==> c.topic != ""
  }

  lemma StepKeepsNamed(s: Bus, step: Step, q: Pid)
    requires Enabled(s, step) && q < |Apply(s, step).calls| && (q < |s.calls| ==> Named(s.calls[q]))
    ensures Named(Apply(s, step).calls[q])
  {
    if q >= |s.calls| {
      AddedCall(s, step);
    } else if step == RunSubscribe(q) {
      MoveKeepsNamed(s, q);
    } else {
      StepSuccessor(s, step, q);
    }
  }

  lemma MoveKeepsNamed(s: Bus, q: Pid)
    requires SubscribeReady(s, q) && Named(s.calls[q])
    ensures Named(SubscribeMove(s, q).call)
  {
  }

  lemma {:induction false} ExecIsNamed(size: int, schedule: seq<Step>, q: Pid)
    requires Exec(New(size), schedule).Some? && q < |Exec(New(size), schedule).value.calls|
    ensures Named(Exec(New(size), schedule).value.calls[q])
  {
    if schedule != [] {
      var before := schedule[..|schedule| - 1];
      if q < |Exec(New(size), before).value.calls| { ExecIsNamed(size, before, q); }
      StepKeepsNamed(Exec(New(size), before).value, schedule[|schedule| - 1], q);
    }
  }

  lemma TopicIsNamed(s: Bus, p: Pid, t: Tid, id: nat, from: nat)
    requires Reachable(s) && Stands(s, p, t, id, from)
    ensures s.ts[t].name != ""
  {
    var size: int, schedule: seq<Step> :| Exec(New(size), schedule) == Some(s);
    ExecIsNamed(size, schedule, p);
    ReachableIsGood(s);
    assert TargetOk(s.calls[p], s.ts);
  }

  lemma {:induction false} RunKeepsStanding(s: Bus, schedule: seq<Step>, p: Pid, t: Tid, id: nat, from: nat)
    requires Reachable(s) && Stands(s, p, t, id, from) && Exec(s, schedule).Some? && NoArrivals(schedule)
    ensures Reachable(Exec(s, schedule).value) && Stands(Exec(s, schedule).value, p, t, id, from)
  {
    if schedule != [] {
      var before := schedule[..|schedule| - 1];
      RunKeepsStanding(s, before, p, t, id, from);
      StepReachable(Exec(s, before).value, schedule[|schedule| - 1]);
      StandsStays(Exec(s, before).value, schedule[|schedule| - 1], p, t, id, from);
    }
  }

  /** While Close waits for `b.mu`, Publish call `n` makes its way to its registration. */
  ghost predicate Entering(s: Bus, p: Pid, t: Tid, id: nat, from: nat, n: Pid, pc: PubPC) {
    && Reachable(s) && Stands(s, p, t, id, from) && s.ts[t].name != ""
    && s.closer == CloseLock && !s.closed && s.mu == (if pc == PubCheck then ByCall(n) else Free)
    && n < |s.calls| && s.calls[n] == Publish(s.ts[t].name, NilPointer(""), Outside, pc)
  }

  function NextEntry(pc: PubPC): PubPC {
    if pc == PubEntry then PubLock else if pc == PubLock then PubCheck else PubLockTopic
  }

  lemma EntryStep(s: Bus, p: Pid, t: Tid, id: nat, from: nat, n: Pid, pc: PubPC)
    requires Entering(s, p, t, id, from, n, pc) && (pc == PubEntry || pc == PubLock || pc == PubCheck)
    ensures Enabled(s, RunPublish(n, Send))
    ensures Entering(Apply(s, RunPublish(n, Send)), p, t, id, from, n, NextEntry(pc))
  {
    StepReachable(s, RunPublish(n, Send));
    StandsStays(s, RunPublish(n, Send), p, t, id, from);
  }

  lemma {:induction false} EnteringGives(s: Bus, p: Pid, t: Tid, id: nat, from: nat, n: Pid, pc: PubPC)
    returns (schedule: seq<Step>)
    requires Entering(s, p, t, id, from, n, pc)
    requires pc == PubEntry || pc == PubLock || pc == PubCheck || pc == PubLockTopic
    ensures Gives(s, schedule, t, id)
    decreases if pc == PubEntry then 3 else if pc == PubLock then 2 else if pc == PubCheck then 1 else 0
  {
    if pc == PubLockTopic {
      schedule := PledgedIsGiven(s, p, t, id, from, n);
    } else {
      EntryStep(s, p, t, id, from, n, pc);
      var rest := EnteringGives(Apply(s, RunPublish(n, Send)), p, t, id, from, n, NextEntry(pc));
      schedule := GivesCons(s, RunPublish(n, Send), rest, t, id);
    }
  }

  lemma NewPublishGives(s: Bus, p: Pid, t: Tid, id: nat, from: nat) returns (schedule: seq<Step>)
    requires Reachable(s) && Stands(s, p, t, id, from) && s.closer == CloseLock && s.mu == Free
    ensures Gives(s, schedule, t, id)
  {
    TopicIsNamed(s, p, t, id, from);
    ReachableIsGood(s);
    var step := StartPublish(s.ts[t].name, NilPointer(""), Outside);
    StepReachable(s, step);
    var rest := EnteringGives(Apply(s, step), p, t, id, from, |s.calls|, PubEntry);
    schedule := GivesCons(s, step, rest, t, id);
  }

  /** As long as Close has not taken `b.mu` a Publish can still get in. */
  lemma EarlyGives(s: Bus, p: Pid, t: Tid, id: nat, from: nat) returns (schedule: seq<Step>)
    requires Reachable(s) && Stands(s, p, t, id, from) && (s.closer == CloseIdle || s.closer == CloseLock)
    ensures Gives(s, schedule, t, id)
    decreases if s.closer == CloseIdle then 1 else 0
  {
    if s.closer == CloseIdle {
      StepReachable(s, StartClose);
      var rest := EarlyGives(Apply(s, StartClose), p, t, id, from);
      schedule := GivesCons(s, StartClose, rest, t, id);
    } else {
      ReachableIsSound(s);
      var freed := FreeBusLock(s);
      RunKeepsStanding(s, freed, p, t, id, from);
      var rest := NewPublishGives(Exec(s, freed).value, p, t, id, from);
      ExecConcat(s, freed, rest);
      schedule := freed + rest;
    }
  }

  lemma UndecidedGives(s: Bus, p: Pid, t: Tid, id: nat, from: nat, q: Pid) returns (schedule: seq<Step>)
    requires Reachable(s) && Stands(s, p, t, id, from) && |s.ts[t].enqueued| == from
    requires q < |s.calls| && Undecided(s.calls[q], s.ts[t].name)
    ensures Gives(s, schedule, t, id)
  {
    if s.calls[q].ppc.PubBlocked? {
      BlockedCanSend(s, p, t, id, from, q);
      var rest := PledgedIsGiven(Apply(s, RunPublish(q, Send)), p, t, id, from, q);
      schedule := GivesCons(s, RunPublish(q, Send), rest, t, id);
    } else {
      schedule := PledgedIsGiven(s, p, t, id, from, q);
    }
  }

  lemma NotOverGives(s: Bus, p: Pid, t: Tid, id: nat, from: nat) returns (schedule: seq<Step>)
    requires Reachable(s) && Stands(s, p, t, id, from) && from == |s.ts[t].snaps| && !Over(s, t)
    ensures Gives(s, schedule, t, id)
  {
    FromIsBounded(s, p, t, id, from);
    if !Shut(s) {
      ReachableIsGood(s);
      schedule := EarlyGives(s, p, t, id, from);
    } else if |s.ts[t].enqueued| > from {
      schedule := PledgedIsGiven(s, p, t, id, from, 0);
    } else {
      var q :| 0 <= q < |s.calls| && Undecided(s.calls[q], s.ts[t].name);
      schedule := UndecidedGives(s, p, t, id, from, q);
    }
  }

  /** A registration that no dispatch has seen yet, such as one just installed, is never given an event in any run
      exactly when `closed` is set or Close is about to set it, the topic has nothing left to dispatch and no Publish to
      it is still undecided.  That is so on a dead topic; it never is before Close has `b.mu`. */
  lemma SilentIff(s: Bus, p: Pid, t: Tid, id: nat, from: nat)
    requires Reachable(s) && Stands(s, p, t, id, from) && from == |s.ts[t].snaps|
    ensures Silent(s, t, id) <==> Over(s, t)
    ensures s.ts[t].worker.Exited? ==> Silent(s, t, id)
    ensures s.closer == CloseIdle || s.closer == CloseLock ==> !Silent(s, t, id)
  {
    if Over(s, t) {
      OverIsSilent(s, p, t, id, from);
    } else {
      var schedule := NotOverGives(s, p, t, id, from);
      assert !NothingGiven(Exec(s, schedule).value, t, id);
    }
    EarlyIsNotShut(s);
    if s.ts[t].worker.Exited? { DeadIsOver(s, t); }
  }

  lemma EarlyIsNotShut(s: Bus)
    requires Reachable(s)
    ensures s.closer == CloseIdle || s.closer == CloseLock <==> !Shut(s)
  {
    ReachableIsGood(s);
  }

  lemma DeadIsOver(s: Bus, t: Tid)
    requires Reachable(s) && t < |s.ts| && s.ts[t].worker.Exited?
    ensures Over(s, t)
  {
    ReachableIsGood(s);
    assert ChannelOk(s.closer, t, s.ts[t]) && TopicOk(s.calls, s.nextSubID, s.ts[t]);
    forall q | 0 <= q < |s.calls|
      ensures !Undecided(s.calls[q], s.ts[t].name)
    {
      SumAtLeast(s.calls, InFlightCount, q);
    }
  }
}
