/** Close always comes to an end: no state is stuck, and every fair run drains. */
module BusShutdown {
  import opened BusModel
  import opened BusSafety
  import opened BusDelivery
  import opened Options
  import opened Sums

  // ---------------------------------------------------------------- handlers wait for calls that exist

  /** The call a handler waits for was made by it, and an unsubscribe it waits for is under way or done. */
  predicate NestedOk(calls: seq<Proc>, t: Tid, n: Nested) {
    match n
    case Idle => true
    case OnPublish(p) => p < |calls| && calls[p].Publish? && calls[p].waiter == InHandler(t)
    case OnSubscribe(p) =>
      p < |calls| && calls[p].Subscribe? && (calls[p].spc.SubEntry? ==> calls[p].waiter == InHandler(t))
    case OnUnsubscribe(p) =>
      p < |calls| && calls[p].Subscribe? &&
      (calls[p].spc.UnsubLock? || calls[p].spc.UnsubFilter? || calls[p].spc.Removed?)
  }

  predicate WaitOk(calls: seq<Proc>, t: Tid, w: WorkerPC) {
    w.Calling? ==> NestedOk(calls, t, w.nested)
  }

  ghost predicate Waits(calls: seq<Proc>, ts: seq<TopicState>) {
    forall t :: 0 <= t < |ts| ==> WaitOk(calls, t, ts[t].worker)
  }

  /** How a call may change while someone waits for it. */
  predicate Forward(c: Proc, c': Proc) {
    if c.Publish? then c'.Publish? && c'.waiter == c.waiter
    else
      c'.Subscribe? && !c'.spc.SubEntry? &&
      (c.spc.UnsubLock? || c.spc.UnsubFilter? || c.spc.Removed? ==>
         c'.spc.UnsubLock? || c'.spc.UnsubFilter? || c'.spc.Removed?)
  }

  lemma ForwardKeepsWaits(calls: seq<Proc>, ts: seq<TopicState>, p: Pid, c: Proc)
    requires Waits(calls, ts) && p < |calls| && Forward(calls[p], c)
    ensures Waits(calls[p := c], ts)
  {
    forall t | 0 <= t < |ts|
      ensures WaitOk(calls[p := c], t, ts[t].worker)
    {
      assert WaitOk(calls, t, ts[t].worker);
    }
  }

  lemma CommitKeepsWaits(s: Bus, p: Pid, m: Move)
    requires Waits(s.calls, s.ts) && p < |s.calls| && Forward(s.calls[p], m.call)
    requires m.change.Put? ==> m.change.t < |s.ts| && m.change.x.worker == s.ts[m.change.t].worker
    ensures Waits(Commit(s, p, m).calls, Commit(s, p, m).ts)
  {
    ForwardKeepsWaits(s.calls, s.ts, p, m.call);
    var s' := Commit(s, p, m);
    forall t | 0 <= t < |s'.ts|
      ensures WaitOk(s'.calls, t, s'.ts[t].worker)
    {
      if t < |s.ts| {
        assert WaitOk(s'.calls, t, s.ts[t].worker);
      }
    }
  }

  lemma PublishForward(s: Bus, p: Pid, branch: Branch)
    requires PublishReady(s, p, branch)
    ensures var m := PublishMove(s, p, branch);
      Forward(s.calls[p], m.call) &&
      (m.change.Put? ==> m.change.t < |s.ts| && m.change.x.worker == s.ts[m.change.t].worker)
  {
  }

  lemma SubscribeForward(s: Bus, p: Pid)
    requires SubscribeReady(s, p)
    ensures var m := SubscribeMove(s, p);
      Forward(s.calls[p], m.call) &&
      (m.change.Put? ==> m.change.t < |s.ts| && m.change.x.worker == s.ts[m.change.t].worker)
  {
  }

  lemma WorkerKeepsWaits(s: Bus, t: Tid, budget: nat)
    requires Waits(s.calls, s.ts) && WorkerReady(s, t)
    ensures Waits(s.calls, s.ts[t := WorkerTurn(s, t, budget).x])
  {
    assert WaitOk(s.calls, t, s.ts[t].worker);
  }

  lemma CloseKeepsWaits(s: Bus, t: Tid)
    requires Waits(s.calls, s.ts) && CloseReady(s, t)
    ensures Waits(CloseStep(s, t).calls, CloseStep(s, t).ts)
  {
    var s' := CloseStep(s, t);
    forall u | 0 <= u < |s'.ts|
      ensures WaitOk(s'.calls, u, s'.ts[u].worker)
    {
      assert WaitOk(s.calls, u, s.ts[u].worker);
    }
  }

  /** A new or restarted call, and the handler that now waits for it. */
  lemma ArriveKeepsWaits(s: Bus, w: Waiter, n: Nested, calls: seq<Proc>)
    requires Waits(s.calls, s.ts) && CanCall(s, w) && |s.calls| <= |calls|
    requires forall p :: 0 <= p < |s.calls| ==> calls[p] == s.calls[p] || Forward(s.calls[p], calls[p])
    requires w.InHandler? ==> NestedOk(calls, w.t, n)
    ensures Waits(calls, Await(s, w, n).ts)
  {
    var ts' := Await(s, w, n).ts;
    forall u | 0 <= u < |ts'|
      ensures WaitOk(calls, u, ts'[u].worker)
    {
      assert WaitOk(s.calls, u, s.ts[u].worker);
    }
  }

  lemma StepKeepsWaits(s: Bus, step: Step)
    requires Waits(s.calls, s.ts) && Enabled(s, step)
    ensures Waits(Apply(s, step).calls, Apply(s, step).ts)
  {
    match step
    case RunPublish(p, branch) =>
      PublishForward(s, p, branch);
      CommitKeepsWaits(s, p, PublishMove(s, p, branch));
    case RunSubscribe(p) =>
      SubscribeForward(s, p);
      CommitKeepsWaits(s, p, SubscribeMove(s, p));
    case RunWorker(t, budget) => WorkerKeepsWaits(s, t, budget);
    case RunClose(t) => CloseKeepsWaits(s, t);
    case StartPublish(topic, event, w) =>
      ArriveKeepsWaits(s, w, OnPublish(|s.calls|), s.calls + [Publish(topic, event, w, PubEntry)]);
    case StartSubscribe(topic, handler, w) =>
      ArriveKeepsWaits(s, w, OnSubscribe(|s.calls|), s.calls + [Subscribe(topic, handler, w, SubEntry)]);
    case StartUnsubscribe(p, w) =>
      ArriveKeepsWaits(s, w, OnUnsubscribe(p), Apply(s, step).calls);
    case StartClose =>
  }

  ghost predicate Sound(s: Bus) { Good(s) && Waits(s.calls, s.ts) }

  lemma StepKeepsSound(s: Bus, step: Step)
    requires Sound(s) && Enabled(s, step)
    ensures Sound(Apply(s, step))
  {
    StepKeepsGood(s, step);
    StepKeepsWaits(s, step);
  }

  lemma {:induction false} ExecIsSound(s: Bus, schedule: seq<Step>)
    requires Sound(s) && Exec(s, schedule).Some?
    ensures Sound(Exec(s, schedule).value)
  {
    if schedule != [] {
      ExecIsSound(s, schedule[..|schedule| - 1]);
      StepKeepsSound(Exec(s, schedule[..|schedule| - 1]).value, schedule[|schedule| - 1]);
    }
  }

  lemma ReachableIsSound(s: Bus)
    requires Reachable(s)
    ensures Sound(s)
  {
    var size: int, schedule: seq<Step> :| Exec(New(size), schedule) == Some(s);
    ExecIsGood(size, []);
    ExecIsSound(New(size), schedule);
  }

  // ---------------------------------------------------------------- no state is stuck

  /** A step that only lets a call in from outside, or turns it away at the first check of `closed`. */
  predicate Arrival(s: Bus, step: Step) {
    match step
    case StartPublish(_, _, w) => w == Outside
    case StartSubscribe(_, _, w) => w == Outside
    case RunPublish(p, _) => p < |s.calls| && s.calls[p].Publish? && s.calls[p].ppc == PubEntry && s.calls[p].waiter == Outside
    case RunSubscribe(p) => p < |s.calls| && s.calls[p].Subscribe? && s.calls[p].spc == SubEntry && s.calls[p].waiter == Outside
    case _ => false
  }

  /** A step of a goroutine that is already inside the bus. */
  predicate Internal(s: Bus, step: Step) {
    Enabled(s, step) && !Arrival(s, step) &&
    (step.RunPublish? || step.RunSubscribe? || step.RunWorker? || step.RunClose?)
  }

  lemma TopicHolderMoves(s: Bus, t: Tid) returns (step: Step)
    requires TopicLocks(s.calls, s.ts) && Targets(s.calls, s.ts) && t < |s.ts| && s.ts[t].lock != Open
    ensures Internal(s, step)
  {
    assert TopicLockOk(s.calls, t, s.ts[t]);
    match s.ts[t].lock
    case Reading => step := RunWorker(t, 0);
    case Writing(q) =>
      assert HeldTopic(s.calls[q]) == Some(t) && TargetOk(s.calls[q], s.ts);
      step := RunSubscribe(q);
  }

  lemma BusHolderMoves(s: Bus) returns (step: Step)
    requires BusLock(s.calls, s.mu, s.closer) && TopicLocks(s.calls, s.ts) && Targets(s.calls, s.ts) && s.mu != Free
    ensures Internal(s, step)
  {
    match s.mu
    case ByClose => step := RunClose(0);
    case ByCall(p) =>
      assert HoldsBus(s.calls[p]) && TargetOk(s.calls[p], s.ts);
      if s.calls[p].Subscribe? && s.calls[p].spc.SubLockTopic? && s.ts[s.calls[p].spc.t].lock != Open {
        step := TopicHolderMoves(s, s.calls[p].spc.t);
      } else {
        step := if s.calls[p].Publish? then RunPublish(p, Send) else RunSubscribe(p);
        HolderReady(s, p);
      }
  }

  /** A call that holds the bus mutex waits for nothing but a topic lock. */
  lemma HolderReady(s: Bus, p: Pid)
    requires p < |s.calls| && HoldsBus(s.calls[p]) && TargetOk(s.calls[p], s.ts)
    requires s.calls[p].Subscribe? && s.calls[p].spc.SubLockTopic? ==> s.ts[s.calls[p].spc.t].lock == Open
    ensures Internal(s, if s.calls[p].Publish? then RunPublish(p, Send) else RunSubscribe(p))
  {
  }

  /** A Publish that has begun can move, or someone it waits for can: `done` wakes it if its queue is full. */
  lemma PublisherMoves(s: Bus, p: Pid) returns (step: Step)
    requires Sound(s) && s.done && p < |s.calls| && s.calls[p].Publish? && !s.calls[p].ppc.PubReturned?
    requires s.calls[p].ppc.PubEntry? ==> s.calls[p].waiter != Outside
    ensures Internal(s, step)
  {
    if (s.calls[p].ppc.PubLock? || s.calls[p].ppc.PubLockTopic?) && s.mu != Free {
      step := BusHolderMoves(s);
    } else {
      step := RunPublish(p, Wake);
      PublisherReady(s, p);
    }
  }

  lemma PublisherReady(s: Bus, p: Pid)
    requires Targets(s.calls, s.ts) && s.done && p < |s.calls| && s.calls[p].Publish? && !s.calls[p].ppc.PubReturned?
    requires s.calls[p].ppc.PubLock? || s.calls[p].ppc.PubLockTopic? ==> s.mu == Free
    requires s.calls[p].ppc.PubEntry? ==> s.calls[p].waiter != Outside
    ensures Internal(s, RunPublish(p, Wake))
  {
    assert TargetOk(s.calls[p], s.ts);
  }

  lemma SubscriberMoves(s: Bus, p: Pid) returns (step: Step)
    requires Sound(s) && p < |s.calls| && s.calls[p].Subscribe?
    requires !s.calls[p].spc.SubFailed? && !s.calls[p].spc.Installed? && !s.calls[p].spc.Removed?
    requires s.calls[p].spc.SubEntry? ==> s.calls[p].waiter != Outside
    ensures Internal(s, step)
  {
    var c := s.calls[p];
    assert TargetOk(c, s.ts);
    if c.spc.SubLock? && s.mu != Free {
      step := BusHolderMoves(s);
    } else if c.spc.SubLockTopic? && s.ts[c.spc.t].lock != Open {
      step := TopicHolderMoves(s, c.spc.t);
    } else if c.spc.UnsubLock? && s.ts[c.spc.t].lock != Open {
      step := TopicHolderMoves(s, c.spc.t);
    } else {
      step := RunSubscribe(p);
    }
  }

  lemma AwaitedCallMoves(s: Bus, t: Tid, n: Nested) returns (step: Step)
    requires Sound(s) && s.done && NestedOk(s.calls, t, n) && !NestedDone(s, n)
    ensures Internal(s, step)
  {
    match n
    case OnPublish(p) => step := PublisherMoves(s, p);
    case OnSubscribe(p) => step := SubscriberMoves(s, p);
    case OnUnsubscribe(p) => step := SubscriberMoves(s, p);
  }

  lemma WorkerMoves(s: Bus, t: Tid) returns (step: Step)
    requires Sound(s) && s.done && t < |s.ts| && s.ts[t].chClosed && !s.ts[t].worker.Exited?
    ensures Internal(s, step)
  {
    var x := s.ts[t];
    assert WaitOk(s.calls, t, x.worker);
    if x.worker.Popped? && x.lock != Open {
      step := TopicHolderMoves(s, t);
    } else if x.worker.Calling? && !NestedDone(s, x.worker.nested) {
      step := AwaitedCallMoves(s, t, x.worker.nested);
    } else {
      step := RunWorker(t, 0);
    }
  }

  /** While Close has been called and has not returned, some goroutine inside the bus can move. */
  lemma CloseIsNeverStuck(s: Bus) returns (step: Step)
    requires Reachable(s) && !s.closer.CloseIdle? && !s.closer.CloseReturned?
    ensures Internal(s, step)
  {
    ReachableIsSound(s);
    step := SomeoneMoves(s);
  }

  lemma SomePublisherMoves(s: Bus) returns (step: Step)
    requires Sound(s) && s.done && s.publishWG != 0
    ensures Internal(s, step)
  {
    var p := SumWitness(s.calls, InFlightCount);
    step := PublisherMoves(s, p);
  }

  lemma SomeWorkerMoves(s: Bus) returns (step: Step)
    requires Sound(s) && s.closer.CloseJoin? && s.wg != 0
    ensures Internal(s, step)
  {
    var t := SumWitness(s.ts, AliveCount);
    assert ChannelOk(s.closer, t, s.ts[t]);
    step := WorkerMoves(s, t);
  }

  lemma SomeoneMoves(s: Bus) returns (step: Step)
    requires Sound(s) && !s.closer.CloseIdle? && !s.closer.CloseReturned?
    ensures Internal(s, step)
  {
    if s.closer.CloseLock? && s.mu != Free {
      step := BusHolderMoves(s);
    } else if s.closer.CloseDrain? && s.publishWG != 0 {
      step := SomePublisherMoves(s);
    } else if s.closer.CloseJoin? && s.wg != 0 {
      step := SomeWorkerMoves(s);
    } else {
      step := CloserMoves(s);
    }
  }

  /** The closer itself can move unless it waits for a lock or a WaitGroup. */
  lemma CloserMoves(s: Bus) returns (step: Step)
    requires Flags(s.closer, s.closed, s.done, s.publishWG, s.wg, |s.ts|)
    requires !s.closer.CloseIdle? && !s.closer.CloseReturned? && (s.closer.CloseLock? ==> s.mu == Free)
    requires (s.closer.CloseDrain? ==> s.publishWG == 0) && (s.closer.CloseJoin? ==> s.wg == 0)
    ensures Internal(s, step)
  {
    if s.closer.CloseChannels? && s.closer.rest != {} {
      var t :| t in s.closer.rest;
      step := RunClose(t);
    } else {
      step := RunClose(0);
    }
  }
}
