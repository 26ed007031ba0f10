/** Once Close has set `closed`, a lexicographic measure falls at every step but an arrival: every fair run drains. */
module BusTermination {
  import opened BusModel
  import opened BusSafety
  import opened BusDelivery
  import opened BusTheorems
  import opened BusShutdown
  import opened FairRuns
  import opened Options
  import opened Sums

  // ---------------------------------------------------------------- the measure

  /** Steps a call can still take that hold up others; a call at its entry will be turned away. */
  function CallWeight(c: Proc): nat {
    match c
    case Publish(_, _, _, pc) =>
      (match pc
       case PubLock => 7
       case PubCheck => 6
       case PubLockTopic => 5
       case PubFind => 4
       case PubTrySend(_) => 3
       case PubBlocked(_) => 2
       case PubLeave(_) => 1
       case _ => 0)
    case Subscribe(_, _, _, pc) =>
      (match pc
       case SubLock => 9
       case SubCheck => 8
       case SubLockTopic(_) => 7
       case SubHandOff(_) => 6
       case SubInstall(_) => 5
       case Installed(_, _, _) => 4
       case UnsubLock(_, _, _) => 3
       case UnsubFilter(_, _, _) => 2
       case _ => 0)
  }

  function CloserWeight(c: ClosePC): nat {
    match c
    case CloseSignal(channels) => |channels| + 4
    case CloseDrain(channels) => |channels| + 3
    case CloseChannels(rest) => |rest| + 2
    case CloseJoin => 1
    case _ => 0
  }

  /** Envelopes that have not got their snapshot. */
  function QueueWeight(x: TopicState): nat {
    3 * |x.queue| + (if x.worker.Popped? then 2 else if x.worker.Snapshotting? then 1 else 0)
  }

  /** Handler calls of the dispatch in progress. */
  function RoundWeight(x: TopicState): nat {
    match x.worker
    case Receiving => 1
    case Dispatching(_, snap, next) => if next <= |snap| then 2 * (|snap| - next) + 2 else 2
    case Calling(_, snap, next, _, _) => if next <= |snap| then 2 * (|snap| - next) + 1 else 1
    case _ => 0
  }

  /** Bus calls of the handlers that are running. */
  function HandlerWeight(x: TopicState): nat {
    if x.worker.Calling? then 3 * x.worker.budget + (if x.worker.nested == Idle then 0 else 1) else 0
  }

  function EntryWeight(c: Proc): nat {
    if c.waiter.InHandler? && ((c.Publish? && c.ppc == PubEntry) || (c.Subscribe? && c.spc == SubEntry)) then 1 else 0
  }

  ghost function Calls(s: Bus): nat { Sum(s.calls, CallWeight) + CloserWeight(s.closer) }
  ghost function Queued(s: Bus): nat { Sum(s.ts, QueueWeight) }
  ghost function Rounding(s: Bus): nat { Sum(s.ts, RoundWeight) }
  ghost function Handling(s: Bus): nat { Sum(s.ts, HandlerWeight) + Sum(s.calls, EntryWeight) }

  ghost function Measure(s: Bus): Rank { Rank(Calls(s), Queued(s), Rounding(s), Handling(s)) }

  ghost predicate Below(s': Bus, s: Bus) { Less(Measure(s'), Measure(s)) }

  ghost predicate Level(s': Bus, s: Bus) { Measure(s') == Measure(s) }

  // ---------------------------------------------------------------- steps of calls

  lemma PublishLighter(s: Bus, p: Pid, branch: Branch)
    requires PublishReady(s, p, branch) && s.closed && !PublishMove(s, p, branch).fault
    ensures var c, m := s.calls[p], PublishMove(s, p, branch);
      if c.ppc == PubEntry
      then CallWeight(m.call) == CallWeight(c) && EntryWeight(m.call) == 0 && m.change == Keep
      else CallWeight(m.call) < CallWeight(c)
  {
  }

  lemma SubscribeLighter(s: Bus, p: Pid)
    requires SubscribeReady(s, p) && s.closed
    ensures var c, m := s.calls[p], SubscribeMove(s, p);
      if c.spc == SubEntry
      then CallWeight(m.call) == CallWeight(c) && EntryWeight(m.call) == 0 && m.change == Keep
      else CallWeight(m.call) < CallWeight(c)
  {
  }

  lemma CommitBelow(s: Bus, p: Pid, m: Move)
    requires p < |s.calls| && (m.change.Put? ==> m.change.t < |s.ts|)
    requires CallWeight(m.call) < CallWeight(s.calls[p])
    ensures Below(Commit(s, p, m), s)
  {
    SumUpdate(s.calls, CallWeight, p, m.call);
  }

  lemma EntryBelow(s: Bus, p: Pid, m: Move)
    requires p < |s.calls| && m.change == Keep
    requires CallWeight(m.call) == CallWeight(s.calls[p]) && EntryWeight(m.call) == 0
    ensures EntryWeight(s.calls[p]) > 0 ==> Below(Commit(s, p, m), s)
    ensures EntryWeight(s.calls[p]) == 0 ==> Level(Commit(s, p, m), s)
  {
    SumUpdate(s.calls, CallWeight, p, m.call);
    SumUpdate(s.calls, EntryWeight, p, m.call);
  }

  // ---------------------------------------------------------------- steps of workers

  lemma TurnLighter(s: Bus, t: Tid, budget: nat)
    requires WorkerReady(s, t) && TopicLog(s.ts[t])
    ensures var x, y := s.ts[t], WorkerTurn(s, t, budget).x;
      || QueueWeight(y) < QueueWeight(x)
      || (QueueWeight(y) == QueueWeight(x) && RoundWeight(y) < RoundWeight(x))
      || (QueueWeight(y) == QueueWeight(x) && RoundWeight(y) == RoundWeight(x) && HandlerWeight(y) < HandlerWeight(x))
  {
  }

  lemma WorkerBelow(s: Bus, t: Tid, budget: nat)
    requires WorkerReady(s, t) && TopicLog(s.ts[t])
    ensures Below(Apply(s, RunWorker(t, budget)), s)
  {
    var y := WorkerTurn(s, t, budget).x;
    TurnLighter(s, t, budget);
    SumUpdate(s.ts, QueueWeight, t, y);
    SumUpdate(s.ts, RoundWeight, t, y);
    SumUpdate(s.ts, HandlerWeight, t, y);
  }

  // ---------------------------------------------------------------- steps of Close, and calls arriving

  lemma CloseBelow(s: Bus, t: Tid)
    requires CloseReady(s, t) && s.closed && Safe(s)
    ensures Below(CloseStep(s, t), s)
  {
    if s.closer.CloseChannels? && s.closer.rest != {} {
      assert s.closer.rest == (s.closer.rest - {t}) + {t};
    }
  }

  lemma AwaitWeights(s: Bus, w: Waiter, n: Nested)
    requires CanCall(s, w) && n != Idle
    ensures var s1 := Await(s, w, n);
      && Queued(s1) == Queued(s) && Rounding(s1) == Rounding(s)
      && (w == Outside ==> s1 == s)
      && (w != Outside ==> Sum(s1.ts, HandlerWeight) + 2 == Sum(s.ts, HandlerWeight))
  {
    if w.InHandler? {
      var y := Await(s, w, n).ts[w.t];
      SumUpdate(s.ts, QueueWeight, w.t, y);
      SumUpdate(s.ts, RoundWeight, w.t, y);
      SumUpdate(s.ts, HandlerWeight, w.t, y);
    }
  }

  lemma ArriveBelow(s: Bus, w: Waiter, n: Nested, c: Proc)
    requires CanCall(s, w) && n != Idle && c.waiter == w && CallWeight(c) == 0
    ensures var s' := Await(s, w, n).(calls := s.calls + [c]);
      (w == Outside ==> Level(s', s)) && (w != Outside ==> Below(s', s))
  {
    AwaitWeights(s, w, n);
    SumAppend(s.calls, CallWeight, c);
    SumAppend(s.calls, EntryWeight, c);
  }

  lemma UnsubscribeBelow(s: Bus, p: Pid, w: Waiter)
    requires Enabled(s, StartUnsubscribe(p, w))
    ensures Below(Apply(s, StartUnsubscribe(p, w)), s)
  {
    SumUpdate(s.calls, CallWeight, p, Apply(s, StartUnsubscribe(p, w)).calls[p]);
  }

  /** After `closed` is set an arrival leaves the measure as it is and every other step lowers it. */
  lemma StepLowersMeasure(s: Bus, step: Step)
    requires Sound(s) && s.closed && Enabled(s, step)
    ensures Arrival(s, step) ==> Level(Apply(s, step), s)
    ensures !Arrival(s, step) ==> Below(Apply(s, step), s)
    ensures Apply(s, step).closed
  {
    match step
    case RunPublish(p, branch) =>
      PublishFaultless(s, p, branch);
      RunPublishLowers(s, p, branch);
    case RunSubscribe(p) => RunSubscribeLowers(s, p);
    case RunWorker(t, budget) =>
      assert TopicOk(s.calls, s.nextSubID, s.ts[t]);
      WorkerBelow(s, t, budget);
    case RunClose(t) => CloseBelow(s, t);
    case StartPublish(_, _, _) => CallBelow(s, step);
    case StartSubscribe(_, _, _) => CallBelow(s, step);
    case StartUnsubscribe(p, w) => UnsubscribeBelow(s, p, w);
    case StartClose =>
  }

  lemma PublishFaultless(s: Bus, p: Pid, branch: Branch)
    requires Safe(s) && PublishReady(s, p, branch)
    ensures !PublishMove(s, p, branch).fault
  {
    RunPublishKeepsSafe(s, p, branch);
  }

  lemma CallBelow(s: Bus, step: Step)
    requires Enabled(s, step) && (step.StartPublish? || step.StartSubscribe?)
    ensures Arrival(s, step) ==> Level(Apply(s, step), s)
    ensures !Arrival(s, step) ==> Below(Apply(s, step), s)
    ensures Apply(s, step).closed == s.closed
  {
    match step
    case StartPublish(topic, event, w) => ArriveBelow(s, w, OnPublish(|s.calls|), Publish(topic, event, w, PubEntry));
    case StartSubscribe(topic, handler, w) =>
      ArriveBelow(s, w, OnSubscribe(|s.calls|), Subscribe(topic, handler, w, SubEntry));
  }

  lemma RunPublishLowers(s: Bus, p: Pid, branch: Branch)
    requires s.closed && PublishReady(s, p, branch) && !PublishMove(s, p, branch).fault
    ensures var s' := Commit(s, p, PublishMove(s, p, branch));
      && s'.closed
      && (Arrival(s, RunPublish(p, branch)) ==> Level(s', s))
      && (!Arrival(s, RunPublish(p, branch)) ==> Below(s', s))
  {
    var m := PublishMove(s, p, branch);
    PublishLighter(s, p, branch);
    if s.calls[p].ppc == PubEntry {
      EntryBelow(s, p, m);
    } else {
      CommitBelow(s, p, m);
    }
  }

  lemma RunSubscribeLowers(s: Bus, p: Pid)
    requires s.closed && SubscribeReady(s, p)
    ensures var s' := Commit(s, p, SubscribeMove(s, p));
      && s'.closed
      && (Arrival(s, RunSubscribe(p)) ==> Level(s', s))
      && (!Arrival(s, RunSubscribe(p)) ==> Below(s', s))
  {
    var m := SubscribeMove(s, p);
    SubscribeLighter(s, p);
    if s.calls[p].spc == SubEntry {
      EntryBelow(s, p, m);
    } else {
      CommitBelow(s, p, m);
    }
  }

  // ---------------------------------------------------------------- fair runs

  /** An infinite run of the bus; at an instant where the plan says None nothing happens. */
  ghost predicate IsRun(run: nat -> Bus, plan: nat -> Option<Step>) {
    forall i: nat :: RunStep(run, plan, i)
  }

  ghost predicate RunStep(run: nat -> Bus, plan: nat -> Option<Step>, i: nat) {
    match plan(i)
    case None => run(i + 1) == run(i)
    case Some(step) => Enabled(run(i), step) && run(i + 1) == Apply(run(i), step)
  }

  /** At instant `i` a goroutine inside the bus moves, or Close has returned already. */
  ghost predicate Progress(run: nat -> Bus, plan: nat -> Option<Step>, i: nat) {
    run(i).closer == CloseReturned || (plan(i).Some? && !Arrival(run(i), plan(i).value))
  }

  /** The scheduler does not neglect the goroutines inside the bus for ever, whatever arrives from outside. */
  ghost predicate Fair(run: nat -> Bus, plan: nat -> Option<Step>) {
    AlwaysRecurs((i: nat) => Progress(run, plan, i))
  }

  lemma RunAdvances(run: nat -> Bus, plan: nat -> Option<Step>, i: nat)
    requires IsRun(run, plan) && Sound(run(i)) && run(i).closed
    ensures Sound(run(i + 1)) && run(i + 1).closed
    ensures Below(run(i + 1), run(i)) || Level(run(i + 1), run(i))
    ensures Progress(run, plan, i) && run(i).closer != CloseReturned ==> Below(run(i + 1), run(i))
  {
    assert RunStep(run, plan, i);
    if plan(i).Some? {
      StepKeepsSound(run(i), plan(i).value);
      StepLowersMeasure(run(i), plan(i).value);
    }
  }

  lemma RunStaysSound(run: nat -> Bus, plan: nat -> Option<Step>, i: nat, j: nat)
    requires IsRun(run, plan) && i <= j && Sound(run(i)) && run(i).closed
    ensures Sound(run(j)) && run(j).closed
  {
    var holds := (k: nat) => Sound(run(k)) && run(k).closed;
    forall k: nat | i <= k && holds(k)
      ensures holds(k + 1)
    {
      RunAdvances(run, plan, k);
    }
    Invariance(holds, i, j);
  }

  lemma MeasureFalls(run: nat -> Bus, plan: nat -> Option<Step>, i: nat, k: nat)
    requires IsRun(run, plan) && i <= k && Sound(run(i)) && run(i).closed
    ensures Measure(run(k + 1)) == Measure(run(k)) || Less(Measure(run(k + 1)), Measure(run(k)))
    ensures Progress(run, plan, k) && run(k).closer != CloseReturned ==> Less(Measure(run(k + 1)), Measure(run(k)))
  {
    RunStaysSound(run, plan, i, k);
    RunAdvances(run, plan, k);
  }

  /** In every run with recurring progress in which Close has set `closed`, Close returns. */
  lemma FairRunCloses(run: nat -> Bus, plan: nat -> Option<Step>, i: nat) returns (n: nat)
    requires Reachable(run(i)) && run(i).closed && IsRun(run, plan) && Fair(run, plan)
    ensures n >= i && run(n).closer == CloseReturned
  {
    ReachableIsSound(run(i));
    var rank := (k: nat) => Measure(run(k));
    var progress := (k: nat) => Progress(run, plan, k);
    var done := (k: nat) => run(k).closer == CloseReturned;
    forall k: nat | i <= k
      ensures rank(k + 1) == rank(k) || Less(rank(k + 1), rank(k))
      ensures progress(k) && !done(k) ==> Less(rank(k + 1), rank(k))
    {
      MeasureFalls(run, plan, i, k);
    }
    n := Ends(rank, progress, done, i);
  }

  // ---------------------------------------------------------------- from every reachable state

  /** How many steps free `b.mu`, if only its holder and the topic lock it waits for are scheduled. */
  function HolderWeight(s: Bus): nat {
    match s.mu
    case Free => 0
    case ByClose => 1
    case ByCall(p) =>
      if p >= |s.calls| || s.calls[p].Publish? then 1
      else
        match s.calls[p].spc
        case SubCheck => 5
        case SubLockTopic(t) => if t < |s.ts| && s.ts[t].lock == Open then 2 else 3
        case _ => 1
  }

  /** Steps of goroutines that are there; no call arrives. */
  predicate NoArrivals(schedule: seq<Step>) {
    forall i :: 0 <= i < |schedule| ==> Runs(schedule[i])
  }

  lemma NoArrivalsConcat(a: seq<Step>, b: seq<Step>)
    requires NoArrivals(a) && NoArrivals(b)
    ensures NoArrivals(a + b)
  {
  }

  predicate Runs(step: Step) { step.RunPublish? || step.RunSubscribe? || step.RunWorker? || step.RunClose? }

  lemma {:induction false} FreeBusLock(s: Bus) returns (schedule: seq<Step>)
    requires Sound(s) && s.closer == CloseLock
    ensures Exec(s, schedule).Some? && NoArrivals(schedule)
    ensures var s' := Exec(s, schedule).value; Sound(s') && s'.mu == Free && s'.closer == CloseLock
    decreases HolderWeight(s)
  {
    if s.mu == Free {
      schedule := [];
      assert Exec(s, []) == Some(s);
    } else {
      var step := HolderStep(s);
      StepKeepsSound(s, step);
      var rest := FreeBusLock(Apply(s, step));
      NoArrivalsConcat([step], rest);
      schedule := [step] + rest;
      ExecCons(s, step, rest);
    }
  }

  lemma ExecCons(s: Bus, step: Step, rest: seq<Step>)
    requires Enabled(s, step)
    ensures Exec(s, [step] + rest) == Exec(Apply(s, step), rest)
  {
    assert [step][..0] == [];
    assert Exec(s, [step]) == Some(Apply(s, step));
    ExecConcat(s, [step], rest);
  }

  lemma HolderStep(s: Bus) returns (step: Step)
    requires Sound(s) && s.closer == CloseLock && s.mu != Free
    ensures Enabled(s, step) && Runs(step) && Apply(s, step).closer == CloseLock
    ensures HolderWeight(Apply(s, step)) < HolderWeight(s)
  {
    var p := s.mu.p;
    assert HoldsBus(s.calls[p]) && TargetOk(s.calls[p], s.ts);
    if s.calls[p].Publish? {
      step := PublisherReleases(s, p);
    } else if s.calls[p].spc.SubLockTopic? && s.ts[s.calls[p].spc.t].lock != Open {
      step := TopicLockFreed(s, p);
    } else {
      step := SubscriberReleases(s, p);
    }
  }

  lemma PublisherReleases(s: Bus, p: Pid) returns (step: Step)
    requires s.mu == ByCall(p) && p < |s.calls| && s.calls[p].Publish? && HoldsBus(s.calls[p])
    ensures Enabled(s, step) && Runs(step) && Apply(s, step).closer == s.closer && HolderWeight(Apply(s, step)) < HolderWeight(s)
  {
    step := RunPublish(p, Send);
  }

  lemma SubscriberReleases(s: Bus, p: Pid) returns (step: Step)
    requires s.mu == ByCall(p) && p < |s.calls| && s.calls[p].Subscribe? && HoldsBus(s.calls[p])
    requires s.calls[p].spc.SubLockTopic? ==> s.calls[p].spc.t < |s.ts| && s.ts[s.calls[p].spc.t].lock == Open
    ensures Enabled(s, step) && Runs(step) && Apply(s, step).closer == s.closer && HolderWeight(Apply(s, step)) < HolderWeight(s)
  {
    step := RunSubscribe(p);
  }

  lemma TopicLockFreed(s: Bus, p: Pid) returns (step: Step)
    requires BusLock(s.calls, s.mu, s.closer) && TopicLocks(s.calls, s.ts) && Targets(s.calls, s.ts)
    requires s.closer == CloseLock && s.mu == ByCall(p)
    requires p < |s.calls| && s.calls[p].Subscribe? && s.calls[p].spc.SubLockTopic?
    requires s.calls[p].spc.t < |s.ts| && s.ts[s.calls[p].spc.t].lock != Open
    ensures Enabled(s, step) && Runs(step) && Apply(s, step).closer == CloseLock
    ensures HolderWeight(Apply(s, step)) == 2 && HolderWeight(s) == 3
  {
    var t := s.calls[p].spc.t;
    assert TopicLockOk(s.calls, t, s.ts[t]);
    if s.ts[t].lock == Reading {
      step := RunWorker(t, 0);
    } else {
      var q := s.ts[t].lock.p;
      assert HeldTopic(s.calls[q]) == Some(t) && TargetOk(s.calls[q], s.ts);
      assert HoldsBus(s.calls[q]) ==> q == p;
      step := RunSubscribe(q);
    }
  }

  lemma CloseStepped(s: Bus)
    requires Sound(s) && CloseReady(s, 0) && (s.closer == CloseLock || s.closer == CloseMark)
    ensures Exec(s, [RunClose(0)]) == Some(CloseStep(s, 0)) && Sound(CloseStep(s, 0))
    ensures if s.closer == CloseLock then CloseStep(s, 0).closer == CloseMark else CloseStep(s, 0).closed
  {
    StepKeepsSound(s, RunClose(0));
    ExecCons(s, RunClose(0), []);
    assert [RunClose(0)] + [] == [RunClose(0)];
  }

  lemma TakeBusLock(s: Bus) returns (schedule: seq<Step>)
    requires Sound(s) && s.closer == CloseLock
    ensures Exec(s, schedule).Some? && NoArrivals(schedule)
    ensures Sound(Exec(s, schedule).value) && Exec(s, schedule).value.closer == CloseMark
  {
    var freed := FreeBusLock(s);
    CloseStepped(Exec(s, freed).value);
    ExecConcat(s, freed, [RunClose(0)]);
    NoArrivalsConcat(freed, [RunClose(0)]);
    schedule := freed + [RunClose(0)];
  }

  /** Close gets past its critical section. */
  lemma ReachClosed(s: Bus) returns (schedule: seq<Step>)
    requires Sound(s) && s.closer != CloseIdle
    ensures Exec(s, schedule).Some? && NoArrivals(schedule)
    ensures Sound(Exec(s, schedule).value) && Exec(s, schedule).value.closed
    decreases if s.closer == CloseLock then 1 else 0
  {
    if s.closer == CloseLock {
      var first := TakeBusLock(s);
      var rest := ReachClosed(Exec(s, first).value);
      ExecConcat(s, first, rest);
      NoArrivalsConcat(first, rest);
      schedule := first + rest;
    } else if s.closer == CloseMark {
      CloseStepped(s);
      schedule := [RunClose(0)];
    } else {
      schedule := [];
      assert Exec(s, []) == Some(s);
    }
  }

  /** From every reachable state in which Close has been called, the goroutines inside the bus can bring it to its
      return without any help from outside. */
  lemma CloseCanAlwaysReturn(s: Bus) returns (schedule: seq<Step>)
    requires Reachable(s) && s.closer != CloseIdle
    ensures Exec(s, schedule).Some? && NoArrivals(schedule) && Exec(s, schedule).value.closer == CloseReturned
  {
    ReachableIsSound(s);
    var first := ReachClosed(s);
    var rest := Drain(Exec(s, first).value);
    ExecConcat(s, first, rest);
    NoArrivalsConcat(first, rest);
    schedule := first + rest;
  }

  lemma {:induction false} Drain(s: Bus) returns (schedule: seq<Step>)
    requires Sound(s) && s.closed
    ensures Exec(s, schedule).Some? && NoArrivals(schedule) && Exec(s, schedule).value.closer == CloseReturned
    decreases Calls(s), Queued(s), Rounding(s), Handling(s)
  {
    if s.closer == CloseReturned {
      schedule := [];
      assert Exec(s, []) == Some(s);
    } else {
      var step := SomeoneMoves(s);
      StepKeepsSound(s, step);
      StepLowersMeasure(s, step);
      var rest := Drain(Apply(s, step));
      NoArrivalsConcat([step], rest);
      schedule := [step] + rest;
      ExecCons(s, step, rest);
    }
  }
}
