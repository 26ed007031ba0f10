/** The inductive invariant behind the shutdown argument of the bus, and what it gives in every reachable state. */
module BusSafety {
  import opened BusModel
  import opened Options
  import opened Sums

  // ---------------------------------------------------------------- who is where

  predicate HoldsBus(c: Proc) {
    match c
    case Publish(_, _, _, pc) => pc.PubCheck? || pc.PubFind?
    case Subscribe(_, _, _, pc) => pc.SubCheck? || pc.SubLockTopic? || pc.SubHandOff?
  }

  /** The topic whose `ts.mu` the call holds for writing. */
  function HeldTopic(c: Proc): Option<Tid> {
    match c
    case Publish(_, _, _, _) => None
    case Subscribe(_, _, _, pc) =>
      (match pc
       case SubHandOff(t) => Some(t)
       case SubInstall(t) => Some(t)
       case UnsubFilter(t, _, _) => Some(t)
       case _ => None)
  }

  /** Between `publishWG.Add` and `publishWG.Done`. */
  predicate InFlight(c: Proc) {
    c.Publish? &&
    (c.ppc.PubLockTopic? || c.ppc.PubFind? || c.ppc.PubTrySend? || c.ppc.PubBlocked? || c.ppc.PubLeave?)
  }

  function InFlightCount(c: Proc): nat { if InFlight(c) then 1 else 0 }

  function AliveCount(x: TopicState): nat { if x.worker.Exited? then 0 else 1 }

  /** The topicState a call has looked up. */
  function Target(c: Proc): Option<Tid> {
    match c
    case Publish(_, _, _, pc) =>
      (match pc
       case PubTrySend(t) => Some(t)
       case PubBlocked(t) => Some(t)
       case _ => None)
    case Subscribe(_, _, _, pc) =>
      (match pc
       case SubLockTopic(t) => Some(t)
       case SubHandOff(t) => Some(t)
       case SubInstall(t) => Some(t)
       case Installed(t, _, _) => Some(t)
       case UnsubLock(t, _, _) => Some(t)
       case UnsubFilter(t, _, _) => Some(t)
       case Removed(t, _, _, _) => Some(t)
       case _ => None)
  }

  // ---------------------------------------------------------------- the invariant

  ghost predicate BusLock(calls: seq<Proc>, mu: Holder, closer: ClosePC) {
    && (forall p :: 0 <= p < |calls| ==> (HoldsBus(calls[p]) <==> mu == ByCall(p)))
    && (mu.ByCall? ==> mu.p < |calls|)
    && (mu == ByClose <==> closer == CloseMark)
  }

  ghost predicate TopicLocks(calls: seq<Proc>, ts: seq<TopicState>) {
    forall t :: 0 <= t < |ts| ==> TopicLockOk(calls, t, ts[t])
  }

  ghost predicate TopicLockOk(calls: seq<Proc>, t: Tid, x: TopicState) {
    && (x.lock == Reading <==> x.worker.Snapshotting?)
    && (forall p :: 0 <= p < |calls| ==> (HeldTopic(calls[p]) == Some(t) <==> x.lock == Writing(p)))
    && (x.lock.Writing? ==> x.lock.p < |calls|)
  }

  /** The map and the heap of topics are in one-to-one correspondence. */
  ghost predicate TopicMap(topics: map<string, Tid>, ts: seq<TopicState>) {
    && (forall t :: 0 <= t < |ts| ==> ts[t].name in topics && topics[ts[t].name] == t)
    && (forall name :: name in topics ==> topics[name] < |ts| && ts[topics[name]].name == name)
  }

  /** A call works on the topic it asked for. */
  ghost predicate Targets(calls: seq<Proc>, ts: seq<TopicState>) {
    forall p :: 0 <= p < |calls| ==> TargetOk(calls[p], ts)
  }

  ghost predicate TargetOk(c: Proc, ts: seq<TopicState>) {
    Target(c).Some? ==> Target(c).value < |ts| && ts[Target(c).value].name == c.topic
  }

  /** How far Close has come fixes the flags, the counters and which channels are closed. */
  ghost predicate Flags(closer: ClosePC, closed: bool, done: bool, publishWG: int, wg: int, n: nat) {
    && closed == !(closer.CloseIdle? || closer.CloseLock? || closer.CloseMark?)
    && done == DrainBegun(closer)
    && (closer.CloseSignal? ==> forall t :: t in closer.channels <==> 0 <= t < n)
    && (closer.CloseDrain? ==> forall t :: t in closer.channels <==> 0 <= t < n)
    && (closer.CloseChannels? ==> forall t :: t in closer.rest ==> 0 <= t < n)
    && (closer.CloseChannels? || closer.CloseJoin? || closer.CloseReturned? ==> publishWG == 0)
    && (closer.CloseReturned? ==> wg == 0)
  }

  ghost predicate Channels(closer: ClosePC, ts: seq<TopicState>) {
    forall t :: 0 <= t < |ts| ==> ChannelOk(closer, t, ts[t])
  }

  /** A worker leaves only a closed and drained channel. */
  predicate ChannelOk(closer: ClosePC, t: Tid, x: TopicState) {
    (x.chClosed <==> ChannelDone(closer, t)) && (x.worker.Exited? ==> x.chClosed && x.queue == [])
  }

  predicate ChannelDone(c: ClosePC, t: Tid) {
    (c.CloseChannels? && t !in c.rest) || c.CloseJoin? || c.CloseReturned?
  }

  ghost predicate Safe(s: Bus) {
    && s.cap > 0
    && !s.fault
    && BusLock(s.calls, s.mu, s.closer)
    && TopicLocks(s.calls, s.ts)
    && TopicMap(s.topics, s.ts)
    && Targets(s.calls, s.ts)
    && s.publishWG == Sum(s.calls, InFlightCount)
    && s.wg == Sum(s.ts, AliveCount)
    && Flags(s.closer, s.closed, s.done, s.publishWG, s.wg, |s.ts|)
    && Channels(s.closer, s.ts)
  }

  // ---------------------------------------------------------------- steps of calls

  /** A move that respects the locks, the counters and the shutdown protocol. */
  ghost predicate GoodMove(s: Bus, p: Pid, m: Move)
    requires p < |s.calls|
  {
    var c := s.calls[p];
    && !m.fault
    && m.call.Publish? == c.Publish?
    && m.call.topic == c.topic
    && (HoldsBus(m.call) <==> m.mu == ByCall(p))
    && (m.mu == s.mu || (s.mu == ByCall(p) && m.mu == Free) || (s.mu == Free && m.mu == ByCall(p)))
    && m.publishWG == s.publishWG + InFlightCount(m.call) - InFlightCount(c)
    && (InFlight(m.call) && !InFlight(c) ==> !s.closed)
    && m.nextSubID >= s.nextSubID
    && match m.change
       case Keep => HeldTopic(m.call) == HeldTopic(c) && TargetOk(m.call, s.ts)
       case Create(name) =>
         && name !in s.topics && !s.closed && name == c.topic
         && Target(m.call) == Some(|s.ts|)
         && HeldTopic(c) == None && HeldTopic(m.call) == None
       case Put(t, x) => t < |s.ts| && PutOk(s.ts[t], x, p, c, m.call, t) && TargetOk(m.call, s.ts)
  }

  ghost predicate PutOk(x0: TopicState, x: TopicState, p: Pid, c: Proc, c': Proc, t: Tid) {
    && x.name == x0.name && x.chClosed == x0.chClosed && x.worker == x0.worker
    && (x.queue == x0.queue || !x0.chClosed)
    && (x.lock == x0.lock || (x0.lock == Open && x.lock == Writing(p)) || (x0.lock == Writing(p) && x.lock == Open))
    && (HeldTopic(c') == None || HeldTopic(c') == Some(t))
    && (HeldTopic(c) == None || HeldTopic(c) == Some(t))
    && (HeldTopic(c') == Some(t) <==> x.lock == Writing(p))
  }

  lemma PublishMoveGood(s: Bus, p: Pid, branch: Branch)
    requires PublishReady(s, p, branch)
    requires s.publishWG == Sum(s.calls, InFlightCount)
    requires DrainBegun(s.closer) ==> s.closed
    requires (exists t :: ChannelDone(s.closer, t)) ==> s.publishWG == 0
    requires HoldsBus(s.calls[p]) <==> s.mu == ByCall(p)
    requires TargetOk(s.calls[p], s.ts) && TopicMap(s.topics, s.ts)
    requires Target(s.calls[p]).Some? ==> var t := Target(s.calls[p]).value;
      s.ts[t].lock != Writing(p) && (s.ts[t].chClosed ==> ChannelDone(s.closer, t))
    ensures GoodMove(s, p, PublishMove(s, p, branch))
  {
    if InFlight(s.calls[p]) {
      SumAtLeast(s.calls, InFlightCount, p);
    }
    if Target(s.calls[p]).Some? {
      SendGood(s, p, branch);
    } else {
      RegistrationGood(s, p, branch);
    }
  }

  /** The steps of Publish that touch a channel. */
  lemma SendGood(s: Bus, p: Pid, branch: Branch)
    requires PublishReady(s, p, branch) && Target(s.calls[p]).Some? && s.mu != ByCall(p)
    requires (exists t :: ChannelDone(s.closer, t)) ==> s.publishWG == 0
    requires s.publishWG > 0 && TargetOk(s.calls[p], s.ts)
    requires var t := Target(s.calls[p]).value;
      s.ts[t].lock != Writing(p) && (s.ts[t].chClosed ==> ChannelDone(s.closer, t))
    ensures GoodMove(s, p, PublishMove(s, p, branch))
  {
  }

  /** The steps of Publish before and after that. */
  lemma RegistrationGood(s: Bus, p: Pid, branch: Branch)
    requires PublishReady(s, p, branch) && Target(s.calls[p]) == None
    requires InFlight(s.calls[p]) ==> s.publishWG > 0
    requires DrainBegun(s.closer) ==> s.closed
    requires HoldsBus(s.calls[p]) <==> s.mu == ByCall(p)
    requires TopicMap(s.topics, s.ts)
    ensures GoodMove(s, p, PublishMove(s, p, branch))
  {
  }

  lemma SubscribeMoveGood(s: Bus, p: Pid)
    requires s.publishWG >= 0 && SubscribeReady(s, p)
    requires HoldsBus(s.calls[p]) <==> s.mu == ByCall(p)
    requires TargetOk(s.calls[p], s.ts) && TopicMap(s.topics, s.ts)
    requires HeldTopic(s.calls[p]).Some? ==> s.ts[Target(s.calls[p]).value].lock == Writing(p)
    ensures GoodMove(s, p, SubscribeMove(s, p))
  {
  }

  lemma BusLockMove(calls: seq<Proc>, mu: Holder, closer: ClosePC, p: Pid, c: Proc, mu': Holder)
    requires BusLock(calls, mu, closer) && p < |calls|
    requires HoldsBus(c) <==> mu' == ByCall(p)
    requires mu' == mu || (mu == ByCall(p) && mu' == Free) || (mu == Free && mu' == ByCall(p))
    ensures BusLock(calls[p := c], mu', closer)
  {
  }

  lemma TopicLocksKeep(calls: seq<Proc>, ts: seq<TopicState>, p: Pid, c: Proc)
    requires TopicLocks(calls, ts) && p < |calls| && HeldTopic(c) == HeldTopic(calls[p])
    ensures TopicLocks(calls[p := c], ts)
  {
  }

  lemma TopicLocksGrow(calls: seq<Proc>, ts: seq<TopicState>, p: Pid, c: Proc, name: string)
    requires TopicLocks(calls, ts) && p < |calls| && HeldTopic(c) == None == HeldTopic(calls[p])
    requires Targets(calls, ts)
    ensures TopicLocks(calls[p := c], ts + [FreshTopic(name)])
  {
    assert forall q :: 0 <= q < |calls| ==> TargetOk(calls[q], ts);
  }

  lemma TopicLocksPut(calls: seq<Proc>, ts: seq<TopicState>, p: Pid, c: Proc, t: Tid, x: TopicState)
    requires TopicLocks(calls, ts) && p < |calls| && t < |ts| && PutOk(ts[t], x, p, calls[p], c, t)
    ensures TopicLocks(calls[p := c], ts[t := x])
  {
    var calls', ts' := calls[p := c], ts[t := x];
    forall u | 0 <= u < |ts'|
      ensures TopicLockOk(calls', u, ts'[u])
    {
      assert TopicLockOk(calls, u, ts[u]);
    }
  }

  lemma TargetsMove(calls: seq<Proc>, ts: seq<TopicState>, p: Pid, c: Proc, ts': seq<TopicState>)
    requires Targets(calls, ts) && p < |calls| && |ts| <= |ts'|
    requires forall t :: 0 <= t < |ts| ==> ts'[t].name == ts[t].name
    requires TargetOk(c, ts')
    ensures Targets(calls[p := c], ts')
  {
    assert forall q :: 0 <= q < |calls| ==> TargetOk(calls[q], ts);
  }

  lemma CommitLocks(s: Bus, p: Pid, m: Move)
    requires Safe(s) && p < |s.calls| && GoodMove(s, p, m)
    ensures var s' := Commit(s, p, m); BusLock(s'.calls, s'.mu, s'.closer) && TopicLocks(s'.calls, s'.ts)
  {
    BusLockMove(s.calls, s.mu, s.closer, p, m.call, m.mu);
    match m.change
    case Keep => TopicLocksKeep(s.calls, s.ts, p, m.call);
    case Create(name) => TopicLocksGrow(s.calls, s.ts, p, m.call, name);
    case Put(t, x) => TopicLocksPut(s.calls, s.ts, p, m.call, t, x);
  }

  lemma CommitTopics(s: Bus, p: Pid, m: Move)
    requires TopicMap(s.topics, s.ts) && Targets(s.calls, s.ts) && p < |s.calls| && GoodMove(s, p, m)
    ensures var s' := Commit(s, p, m); TopicMap(s'.topics, s'.ts) && Targets(s'.calls, s'.ts)
  {
    TargetsMove(s.calls, s.ts, p, m.call, Commit(s, p, m).ts);
    match m.change
    case Keep =>
    case Create(name) => TopicMapGrows(s.topics, s.ts, name);
    case Put(t, x) => TopicMapSame(s.topics, s.ts, t, x);
  }

  lemma TopicMapGrows(topics: map<string, Tid>, ts: seq<TopicState>, name: string)
    requires TopicMap(topics, ts) && name !in topics
    ensures TopicMap(topics[name := |ts|], ts + [FreshTopic(name)])
  {
  }

  lemma CommitCounters(s: Bus, p: Pid, m: Move)
    requires s.publishWG == Sum(s.calls, InFlightCount) && s.wg == Sum(s.ts, AliveCount)
    requires p < |s.calls| && GoodMove(s, p, m)
    ensures var s' := Commit(s, p, m); s'.publishWG == Sum(s'.calls, InFlightCount) && s'.wg == Sum(s'.ts, AliveCount)
  {
    SumUpdate(s.calls, InFlightCount, p, m.call);
    match m.change
    case Keep =>
    case Create(name) => SumAppend(s.ts, AliveCount, FreshTopic(name));
    case Put(t, x) => SumUpdate(s.ts, AliveCount, t, x);
  }

  lemma CommitFlags(s: Bus, p: Pid, m: Move)
    requires p < |s.calls| && GoodMove(s, p, m)
    requires s.publishWG == Sum(s.calls, InFlightCount)
    requires Flags(s.closer, s.closed, s.done, s.publishWG, s.wg, |s.ts|)
    ensures var s' := Commit(s, p, m); Flags(s'.closer, s'.closed, s'.done, s'.publishWG, s'.wg, |s'.ts|)
    ensures s.fault == Commit(s, p, m).fault
  {
    SumAtLeast(s.calls, InFlightCount, p);
  }

  lemma CommitChannels(s: Bus, p: Pid, m: Move)
    requires p < |s.calls| && GoodMove(s, p, m)
    requires Flags(s.closer, s.closed, s.done, s.publishWG, s.wg, |s.ts|)
    requires Channels(s.closer, s.ts)
    ensures Channels(s.closer, Commit(s, p, m).ts)
  {
    if m.change.Put? {
      assert ChannelOk(s.closer, m.change.t, s.ts[m.change.t]);
    }
  }

  lemma CommitKeepsSafe(s: Bus, p: Pid, m: Move)
    requires Safe(s) && p < |s.calls| && GoodMove(s, p, m)
    ensures Safe(Commit(s, p, m))
  {
    CommitLocks(s, p, m);
    CommitTopics(s, p, m);
    CommitCounters(s, p, m);
    CommitFlags(s, p, m);
    CommitChannels(s, p, m);
  }

  // ---------------------------------------------------------------- steps of workers

  lemma WorkerKeepsSafe(s: Bus, t: Tid, budget: nat)
    requires Safe(s) && WorkerReady(s, t)
    ensures Safe(Apply(s, RunWorker(t, budget)))
  {
    var turn := WorkerTurn(s, t, budget);
    var ts' := s.ts[t := turn.x];
    WorkerTurnGood(s, t, budget);
    SumUpdate(s.ts, AliveCount, t, turn.x);
    WorkerTurnLocks(s.calls, s.ts, t, turn.x);
    TargetsSame(s.calls, s.ts, ts');
    TopicMapSame(s.topics, s.ts, t, turn.x);
    ChannelsSame(s.closer, s.ts, t, turn.x);
  }

  lemma ChannelsSame(closer: ClosePC, ts: seq<TopicState>, t: Tid, x: TopicState)
    requires Channels(closer, ts) && t < |ts| && ChannelOk(closer, t, x)
    ensures Channels(closer, ts[t := x])
  {
  }

  lemma TopicMapSame(topics: map<string, Tid>, ts: seq<TopicState>, t: Tid, x: TopicState)
    requires TopicMap(topics, ts) && t < |ts| && x.name == ts[t].name
    ensures TopicMap(topics, ts[t := x])
  {
  }

  ghost predicate GoodTurn(s: Bus, t: Tid, turn: Turn)
    requires t < |s.ts|
  {
    var x := s.ts[t];
    && !turn.fault
    && turn.x.name == x.name
    && ChannelOk(s.closer, t, turn.x)
    && turn.wg == s.wg + AliveCount(turn.x) - AliveCount(x)
    && (turn.x.lock == Reading <==> turn.x.worker.Snapshotting?)
    && (turn.x.lock == x.lock || (x.lock == Open && turn.x.lock == Reading) || (x.lock == Reading && turn.x.lock == Open))
  }

  lemma WorkerTurnGood(s: Bus, t: Tid, budget: nat)
    requires WorkerReady(s, t)
    requires ChannelOk(s.closer, t, s.ts[t]) && s.wg == Sum(s.ts, AliveCount)
    requires s.ts[t].lock == Reading <==> s.ts[t].worker.Snapshotting?
    ensures GoodTurn(s, t, WorkerTurn(s, t, budget))
  {
    SumAtLeast(s.ts, AliveCount, t);
  }

  lemma WorkerTurnLocks(calls: seq<Proc>, ts: seq<TopicState>, t: Tid, x: TopicState)
    requires TopicLocks(calls, ts) && t < |ts|
    requires x.lock == Reading <==> x.worker.Snapshotting?
    requires x.lock == ts[t].lock || (ts[t].lock == Open && x.lock == Reading) || (ts[t].lock == Reading && x.lock == Open)
    ensures TopicLocks(calls, ts[t := x])
  {
    var ts' := ts[t := x];
    forall u | 0 <= u < |ts'|
      ensures TopicLockOk(calls, u, ts'[u])
    {
      assert TopicLockOk(calls, u, ts[u]);
    }
  }

  lemma TargetsSame(calls: seq<Proc>, ts: seq<TopicState>, ts': seq<TopicState>)
    requires Targets(calls, ts) && |ts| <= |ts'|
    requires forall t :: 0 <= t < |ts| ==> ts'[t].name == ts[t].name
    ensures Targets(calls, ts')
  {
    forall p | 0 <= p < |calls|
      ensures TargetOk(calls[p], ts')
    {
      assert TargetOk(calls[p], ts);
    }
  }

  // ---------------------------------------------------------------- steps of Close

  lemma CloseKeepsSafe(s: Bus, t: Tid)
    requires Safe(s) && CloseReady(s, t)
    ensures Safe(CloseStep(s, t))
  {
    var s' := CloseStep(s, t);
    if s.closer.CloseChannels? && s.closer.rest != {} {
      var x := s.ts[t].(chClosed := true);
      SumUpdate(s.ts, AliveCount, t, x);
      WorkerTurnLocks(s.calls, s.ts, t, x);
      TargetsSame(s.calls, s.ts, s.ts[t := x]);
    }
    CloseKeepsFlags(s, t);
    CloseKeepsChannels(s, t);
  }

  lemma TopicsCovered(s: Bus)
    requires TopicMap(s.topics, s.ts)
    ensures forall t :: t in s.topics.Values <==> 0 <= t < |s.ts|
  {
    forall t | 0 <= t < |s.ts|
      ensures t in s.topics.Values
    {
      assert s.topics[s.ts[t].name] == t;
    }
  }

  lemma CloseKeepsFlags(s: Bus, t: Tid)
    requires CloseReady(s, t) && !s.fault
    requires TopicMap(s.topics, s.ts)
    requires Flags(s.closer, s.closed, s.done, s.publishWG, s.wg, |s.ts|)
    requires s.closer.CloseChannels? && t < |s.ts| ==> ChannelOk(s.closer, t, s.ts[t])
    ensures var s' := CloseStep(s, t);
      Flags(s'.closer, s'.closed, s'.done, s'.publishWG, s'.wg, |s'.ts|) && !s'.fault
  {
    TopicsCovered(s);
  }

  lemma CloseKeepsChannels(s: Bus, t: Tid)
    requires CloseReady(s, t) && Channels(s.closer, s.ts)
    requires Flags(s.closer, s.closed, s.done, s.publishWG, s.wg, |s.ts|)
    ensures Channels(CloseStep(s, t).closer, CloseStep(s, t).ts)
  {
    var s' := CloseStep(s, t);
    forall u | 0 <= u < |s'.ts|
      ensures ChannelOk(s'.closer, u, s'.ts[u])
    {
      assert ChannelOk(s.closer, u, s.ts[u]);
    }
  }

  // ---------------------------------------------------------------- calls arriving

  lemma AwaitKeepsSafe(s: Bus, w: Waiter, n: Nested)
    requires Safe(s) && CanCall(s, w)
    ensures Safe(Await(s, w, n))
  {
    if w.InHandler? {
      var x := Await(s, w, n).ts[w.t];
      assert ChannelOk(s.closer, w.t, s.ts[w.t]);
      assert TopicLockOk(s.calls, w.t, s.ts[w.t]);
      SumUpdate(s.ts, AliveCount, w.t, x);
      WorkerTurnLocks(s.calls, s.ts, w.t, x);
      TargetsSame(s.calls, s.ts, s.ts[w.t := x]);
    }
  }

  lemma ArriveKeepsSafe(s: Bus, c: Proc)
    requires Safe(s) && !HoldsBus(c) && HeldTopic(c) == None && Target(c) == None && !InFlight(c)
    ensures Safe(s.(calls := s.calls + [c]))
  {
    var calls' := s.calls + [c];
    SumAppend(s.calls, InFlightCount, c);
    forall t | 0 <= t < |s.ts|
      ensures TopicLockOk(calls', t, s.ts[t])
    {
      assert TopicLockOk(s.calls, t, s.ts[t]);
    }
    forall p | 0 <= p < |calls'|
      ensures TargetOk(calls'[p], s.ts)
    {
      assert p < |s.calls| ==> TargetOk(s.calls[p], s.ts);
    }
  }

  lemma StartUnsubscribeKeepsSafe(s: Bus, p: Pid, w: Waiter)
    requires Safe(s) && Enabled(s, StartUnsubscribe(p, w))
    ensures Safe(Apply(s, StartUnsubscribe(p, w)))
  {
    var pc := s.calls[p].spc;
    var c := s.calls[p].(waiter := w, spc := UnsubLock(pc.t, pc.id, pc.from));
    var s1 := Await(s, w, OnUnsubscribe(p));
    AwaitKeepsSafe(s, w, OnUnsubscribe(p));
    RestartKeepsSafe(s1, p, c);
  }

  lemma RestartKeepsSafe(s: Bus, p: Pid, c: Proc)
    requires Safe(s) && p < |s.calls| && s.calls[p].Subscribe? && s.calls[p].spc.Installed? && c.Subscribe?
    requires c.topic == s.calls[p].topic && c.spc.UnsubLock? && c.spc.t == s.calls[p].spc.t
    ensures Safe(s.(calls := s.calls[p := c]))
  {
    assert TargetOk(s.calls[p], s.ts);
    CommitKeepsSafe(s, p, Stay(s, c));
  }

  lemma StartCloseKeepsSafe(s: Bus)
    requires Safe(s) && s.closer == CloseIdle
    ensures Safe(s.(closer := CloseLock))
  {
    forall u | 0 <= u < |s.ts|
      ensures ChannelOk(CloseLock, u, s.ts[u])
    {
      assert ChannelOk(s.closer, u, s.ts[u]);
    }
  }

  // ---------------------------------------------------------------- every step, every run

  lemma RunPublishKeepsSafe(s: Bus, p: Pid, branch: Branch)
    requires Safe(s) && PublishReady(s, p, branch)
    ensures Safe(Commit(s, p, PublishMove(s, p, branch)))
  {
    if Target(s.calls[p]).Some? {
      var t := Target(s.calls[p]).value;
      assert TargetOk(s.calls[p], s.ts);
      assert TopicLockOk(s.calls, t, s.ts[t]) && ChannelOk(s.closer, t, s.ts[t]);
    }
    PublishMoveGood(s, p, branch);
    CommitKeepsSafe(s, p, PublishMove(s, p, branch));
  }

  lemma RunSubscribeKeepsSafe(s: Bus, p: Pid)
    requires Safe(s) && SubscribeReady(s, p)
    ensures Safe(Commit(s, p, SubscribeMove(s, p)))
  {
    assert TargetOk(s.calls[p], s.ts);
    if HeldTopic(s.calls[p]).Some? {
      assert TopicLockOk(s.calls, Target(s.calls[p]).value, s.ts[Target(s.calls[p]).value]);
    }
    SubscribeMoveGood(s, p);
    CommitKeepsSafe(s, p, SubscribeMove(s, p));
  }

  lemma StepKeepsSafe(s: Bus, step: Step)
    requires Safe(s) && Enabled(s, step)
    ensures Safe(Apply(s, step))
  {
    match step
    case RunPublish(p, branch) => RunPublishKeepsSafe(s, p, branch);
    case RunSubscribe(p) => RunSubscribeKeepsSafe(s, p);
    case RunWorker(t, budget) => WorkerKeepsSafe(s, t, budget);
    case RunClose(t) => CloseKeepsSafe(s, t);
    case StartPublish(topic, event, w) =>
      AwaitKeepsSafe(s, w, OnPublish(|s.calls|));
      ArriveKeepsSafe(Await(s, w, OnPublish(|s.calls|)), Publish(topic, event, w, PubEntry));
    case StartSubscribe(topic, handler, w) =>
      AwaitKeepsSafe(s, w, OnSubscribe(|s.calls|));
      ArriveKeepsSafe(Await(s, w, OnSubscribe(|s.calls|)), Subscribe(topic, handler, w, SubEntry));
    case StartUnsubscribe(p, w) => StartUnsubscribeKeepsSafe(s, p, w);
    case StartClose => StartCloseKeepsSafe(s);
  }

  lemma {:induction false} ExecKeepsSafe(size: int, schedule: seq<Step>)
    requires Exec(New(size), schedule).Some?
    ensures Safe(Exec(New(size), schedule).value)
  {
    if schedule != [] {
      ExecKeepsSafe(size, schedule[..|schedule| - 1]);
      StepKeepsSafe(Exec(New(size), schedule[..|schedule| - 1]).value, schedule[|schedule| - 1]);
    }
  }
}
