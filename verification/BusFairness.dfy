/**
 Close returns under a scheduler that is fair to each goroutine, from the moment it is called: also while it waits for
 `b.mu`, however many others take that lock in between.
 */
module BusFairness {
  import opened BusModel
  import opened BusSafety
  import opened BusDelivery
  import opened BusHistory
  import opened BusTheorems
  import opened BusShutdown
  import opened BusTermination
  import opened FairRuns
  import opened Options

  // ---------------------------------------------------------------- fairness

  datatype Goroutine = CallOf(p: Pid) | WorkerOf(t: Tid) | Closer

  /** The goroutine inside the bus that a step belongs to. */
  function Mover(step: Step): Option<Goroutine> {
    match step
    case RunPublish(p, _) => Some(CallOf(p))
    case RunSubscribe(p) => Some(CallOf(p))
    case RunWorker(t, _) => Some(WorkerOf(t))
    case RunClose(_) => Some(Closer)
    case _ => None
  }

  ghost predicate CanMove(s: Bus, g: Goroutine) {
    exists step :: Mover(step) == Some(g) && Enabled(s, step)
  }

  predicate Took(plan: nat -> Option<Step>, g: Goroutine, i: nat) {
    plan(i).Some? && Mover(plan(i).value) == Some(g)
  }

  ghost function Movable(run: nat -> Bus, g: Goroutine): nat -> bool { (i: nat) => CanMove(run(i), g) }

  ghost function Moved(plan: nat -> Option<Step>, g: Goroutine): nat -> bool { (i: nat) => Took(plan, g, i) }

  /** Strong fairness: a goroutine that can move again and again does move again and again.  A mutex that is free again
      and again is in the end given to each goroutine that waits for it. */
  ghost predicate FairTo(run: nat -> Bus, plan: nat -> Option<Step>, g: Goroutine) {
    AlwaysRecurs(Movable(run, g)) ==> AlwaysRecurs(Moved(plan, g))
  }

  ghost predicate StronglyFair(run: nat -> Bus, plan: nat -> Option<Step>) {
    forall g: Goroutine :: FairTo(run, plan, g)
  }

  /** The goroutine makes no step from instant `i` up to `k`. */
  ghost predicate Quiet(plan: nat -> Option<Step>, g: Goroutine, i: nat, k: nat) {
    forall m: nat :: i <= m < k ==> !Took(plan, g, m)
  }

  lemma {:induction false} FirstMove(plan: nat -> Option<Step>, g: Goroutine, i: nat, j: nat) returns (first: nat)
    requires i <= j && Took(plan, g, j)
    ensures i <= first <= j && Took(plan, g, first) && Quiet(plan, g, i, first)
    decreases j - i
  {
    if Took(plan, g, i) {
      first := i;
    } else {
      first := FirstMove(plan, g, i + 1, j);
    }
  }

  /** A goroutine that, as long as it does not move, can move again and again, moves. */
  lemma Eventually(run: nat -> Bus, plan: nat -> Option<Step>, g: Goroutine, i: nat) returns (j: nat)
    requires StronglyFair(run, plan)
    requires forall k: nat :: i <= k && Quiet(plan, g, i, k) ==> Recurs(Movable(run, g), k)
    ensures i <= j && Took(plan, g, j) && Quiet(plan, g, i, j)
  {
    assert FairTo(run, plan, g);
    if !Recurs(Moved(plan, g), i) {
      StillMovable(run, plan, g, i);
    }
    assert Recurs(Moved(plan, g), i);
    var m: nat :| i <= m && Moved(plan, g)(m);
    j := FirstMove(plan, g, i, m);
  }

  lemma StillMovable(run: nat -> Bus, plan: nat -> Option<Step>, g: Goroutine, i: nat)
    requires !Recurs(Moved(plan, g), i)
    requires forall k: nat :: i <= k && Quiet(plan, g, i, k) ==> Recurs(Movable(run, g), k)
    ensures AlwaysRecurs(Movable(run, g))
  {
    forall k: nat
      ensures Recurs(Movable(run, g), k)
    {
      var later := if k < i then i else k;
      forall m: nat | i <= m < later
        ensures !Took(plan, g, m)
      {
        assert !Moved(plan, g)(m);
      }
      assert Quiet(plan, g, i, later);
      var m: nat :| later <= m && Movable(run, g)(m);
      assert k <= m && Movable(run, g)(m);
    }
  }

  ghost predicate KeepsOn(plan: nat -> Option<Step>, g: Goroutine, holds: nat -> bool, i: nat) {
    forall m: nat :: i <= m && holds(m) && !Took(plan, g, m) ==> holds(m + 1)
  }

  ghost predicate LetsMove(run: nat -> Bus, g: Goroutine, holds: nat -> bool, i: nat) {
    forall m: nat :: i <= m && holds(m) ==> Recurs(Movable(run, g), m)
  }

  lemma {:induction false} QuietInvariance(plan: nat -> Option<Step>, g: Goroutine, holds: nat -> bool, i: nat, k: nat)
    requires i <= k && holds(i) && Quiet(plan, g, i, k) && KeepsOn(plan, g, holds, i)
    ensures holds(k)
  {
    if i < k { QuietInvariance(plan, g, holds, i, k - 1); }
  }

  /** What holds until a goroutine moves, and lets it move again and again, still holds when it does move. */
  lemma MovesWhile(run: nat -> Bus, plan: nat -> Option<Step>, g: Goroutine, holds: nat -> bool, i: nat) returns (j: nat)
    requires StronglyFair(run, plan) && holds(i) && KeepsOn(plan, g, holds, i) && LetsMove(run, g, holds, i)
    ensures i <= j && Took(plan, g, j) && holds(j)
  {
    forall k: nat | i <= k && Quiet(plan, g, i, k)
      ensures Recurs(Movable(run, g), k)
    {
      QuietInvariance(plan, g, holds, i, k);
    }
    j := Eventually(run, plan, g, i);
    QuietInvariance(plan, g, holds, i, j);
  }

  /** The same, with a way out. */
  lemma MovesUnless(run: nat -> Bus, plan: nat -> Option<Step>, g: Goroutine, holds: nat -> bool, out: nat -> bool, i: nat)
    returns (j: nat)
    requires StronglyFair(run, plan) && holds(i)
    requires forall m: nat :: i <= m && holds(m) && !Took(plan, g, m) ==> holds(m + 1) || out(m)
    requires LetsMove(run, g, holds, i)
    ensures i <= j && ((Took(plan, g, j) && holds(j)) || out(j))
  {
    if Recurs(out, i) {
      j :| i <= j && out(j);
    } else {
      assert forall m: nat :: i <= m ==> !out(m);
      j := MovesWhile(run, plan, g, holds, i);
    }
  }

  lemma MovableNow(run: nat -> Bus, g: Goroutine, k: nat, m: nat)
    requires k <= m && CanMove(run(m), g)
    ensures Recurs(Movable(run, g), k)
  {
    assert Movable(run, g)(m);
  }

  lemma ReachableNext(run: nat -> Bus, plan: nat -> Option<Step>, i: nat)
    requires IsRun(run, plan) && Reachable(run(i))
    ensures Reachable(run(i + 1))
  {
    assert RunStep(run, plan, i);
    if plan(i).Some? { StepReachable(run(i), plan(i).value); }
  }

  // ---------------------------------------------------------------- the lock of a topic

  lemma CloserStays(s: Bus, step: Step)
    requires Enabled(s, step) && !step.RunClose? && !step.StartClose?
    ensures Apply(s, step).closer == s.closer
  {
  }

  /** Whoever holds `b.mu` keeps it, and stays where it is, while others move; Close waits. */
  lemma HolderStays(s: Bus, step: Step, p: Pid)
    requires Reachable(s) && Enabled(s, step) && s.mu == ByCall(p) && s.closer == CloseLock && Mover(step) != Some(CallOf(p))
    ensures p < |s.calls| && p < |Apply(s, step).calls| && Apply(s, step).calls[p] == s.calls[p]
    ensures Apply(s, step).mu == ByCall(p) && Apply(s, step).closer == CloseLock
  {
    HolderIs(s, p);
    StepSuccessor(s, step, p);
    CloserStays(s, step);
    StepReachable(s, step);
    HolderIs(Apply(s, step), p);
  }

  lemma HolderIs(s: Bus, p: Pid)
    requires Reachable(s)
    ensures s.mu == ByCall(p) <==> p < |s.calls| && HoldsBus(s.calls[p])
  {
    ReachableIsGood(s);
  }

  /** The goroutine that holds `ts.mu` of topic `t`. */
  function LockOwner(lock: TopicLock, t: Tid): Goroutine
    requires lock != Open
  {
    if lock == Reading then WorkerOf(t) else CallOf(lock.p)
  }

  /** The holder of a topic's lock can move. */
  lemma LockHolderCanMove(s: Bus, t: Tid)
    requires Reachable(s) && t < |s.ts| && s.ts[t].lock != Open
    ensures CanMove(s, LockOwner(s.ts[t].lock, t))
  {
    ReachableIsGood(s);
    assert TopicLockOk(s.calls, t, s.ts[t]);
    match s.ts[t].lock
    case Reading => assert Enabled(s, RunWorker(t, 0)) && Mover(RunWorker(t, 0)) == Some(WorkerOf(t));
    case Writing(q) =>
      assert HeldTopic(s.calls[q]) == Some(t) && TargetOk(s.calls[q], s.ts);
      assert Enabled(s, RunSubscribe(q)) && Mover(RunSubscribe(q)) == Some(CallOf(q));
  }

  /** While its holder does not move, a topic's lock stays with it; and so does a Subscribe call that waits for it with
      `b.mu` in its hand. */
  lemma LockStays(s: Bus, step: Step, p: Pid, t: Tid)
    requires Reachable(s) && Enabled(s, step) && s.mu == ByCall(p) && s.closer == CloseLock
    requires p < |s.calls| && s.calls[p].Subscribe? && s.calls[p].spc == SubLockTopic(t)
    requires t < |s.ts| && s.ts[t].lock != Open && Mover(step) != Some(LockOwner(s.ts[t].lock, t))
    ensures Mover(step) != Some(CallOf(p))
    ensures var s' := Apply(s, step); t < |s'.ts| && s'.ts[t].lock == s.ts[t].lock
  {
    StepReachable(s, step);
    LogsOnlyGrow(s, step, t);
    TopicLockIs(s, t);
    TopicLockIs(Apply(s, step), t);
    match s.ts[t].lock
    case Reading => SnapshotterStays(s, step, t);
    case Writing(q) => StepSuccessor(s, step, q);
  }

  lemma TopicLockIs(s: Bus, t: Tid)
    requires Reachable(s) && t < |s.ts|
    ensures TopicLockOk(s.calls, t, s.ts[t])
  {
    ReachableIsGood(s);
  }

  lemma SnapshotterStays(s: Bus, step: Step, t: Tid)
    requires Enabled(s, step) && t < |s.ts| && s.ts[t].worker.Snapshotting? && Mover(step) != Some(WorkerOf(t))
    ensures t < |Apply(s, step).ts| && Apply(s, step).ts[t].worker.Snapshotting?
  {
    match step
    case RunPublish(p, branch) =>
      PublishForward(s, p, branch);
      CommitKeepsWorker(s, p, PublishMove(s, p, branch), t);
    case RunSubscribe(p) =>
      SubscribeForward(s, p);
      CommitKeepsWorker(s, p, SubscribeMove(s, p), t);
    case _ =>
  }

  lemma CommitKeepsWorker(s: Bus, p: Pid, m: Move, t: Tid)
    requires p < |s.calls| && t < |s.ts|
    requires m.change.Put? ==> m.change.t < |s.ts| && m.change.x.worker == s.ts[m.change.t].worker
    ensures t < |Commit(s, p, m).ts| && Commit(s, p, m).ts[t].worker == s.ts[t].worker
  {
  }

  /** The step of a lock's holder opens it. */
  lemma HolderOpens(s: Bus, step: Step, p: Pid, t: Tid)
    requires Reachable(s) && Enabled(s, step) && s.mu == ByCall(p) && p < |s.calls| && s.calls[p].Subscribe?
    requires s.calls[p].spc == SubLockTopic(t)
    requires t < |s.ts| && s.ts[t].lock != Open && Mover(step) == Some(LockOwner(s.ts[t].lock, t))
    ensures Mover(step) != Some(CallOf(p))
    ensures t < |Apply(s, step).ts| && Apply(s, step).ts[t].lock == Open
  {
    TopicLockIs(s, t);
    if s.ts[t].lock.Writing? {
      var q := s.ts[t].lock.p;
      assert HeldTopic(s.calls[q]) == Some(t);
      HolderIs(s, q);
      WriterOpens(s, q, t);
    }
  }

  lemma WriterOpens(s: Bus, q: Pid, t: Tid)
    requires SubscribeReady(s, q) && HeldTopic(s.calls[q]) == Some(t) && !HoldsBus(s.calls[q]) && t < |s.ts|
    ensures var ts' := Commit(s, q, SubscribeMove(s, q)).ts; t < |ts'| && ts'[t].lock == Open
  {
  }

  // ---------------------------------------------------------------- runs: the lock of a topic

  /** Call `p` waits with `b.mu` in its hand for the lock of topic `t`, which is taken, and Close waits for `b.mu`. */
  ghost predicate Queueing(s: Bus, p: Pid, t: Tid, lock: TopicLock) {
    && Reachable(s) && s.mu == ByCall(p) && s.closer == CloseLock
    && p < |s.calls| && s.calls[p].Subscribe? && s.calls[p].spc == SubLockTopic(t)
    && t < |s.ts| && s.ts[t].lock == lock
  }

  lemma QueueingStays(run: nat -> Bus, plan: nat -> Option<Step>, i: nat, p: Pid, t: Tid, lock: TopicLock)
    requires IsRun(run, plan) && Queueing(run(i), p, t, lock) && lock != Open
    requires !Took(plan, LockOwner(lock, t), i)
    ensures Queueing(run(i + 1), p, t, lock)
  {
    assert RunStep(run, plan, i);
    ReachableNext(run, plan, i);
    if plan(i).Some? {
      LockStays(run(i), plan(i).value, p, t);
      HolderStays(run(i), plan(i).value, p);
    }
  }

  /** The lock of the topic is opened while call `p` waits for it: at that instant the call can take it. */
  lemma TopicFreed(run: nat -> Bus, plan: nat -> Option<Step>, i: nat, p: Pid, t: Tid, lock: TopicLock)
    requires IsRun(run, plan) && StronglyFair(run, plan) && Queueing(run(i), p, t, lock) && lock != Open
    ensures Recurs(Movable(run, CallOf(p)), i)
  {
    var j := OwnerMoves(run, plan, i, p, t, lock);
    Handover(run, plan, j, p, t, lock);
    RecursEarlier(Movable(run, CallOf(p)), i, j);
  }

  lemma RecursEarlier(progress: nat -> bool, i: nat, j: nat)
    requires i <= j && Recurs(progress, j)
    ensures Recurs(progress, i)
  {
  }

  lemma OwnerMoves(run: nat -> Bus, plan: nat -> Option<Step>, i: nat, p: Pid, t: Tid, lock: TopicLock) returns (j: nat)
    requires IsRun(run, plan) && StronglyFair(run, plan) && Queueing(run(i), p, t, lock) && lock != Open
    ensures i <= j && Took(plan, LockOwner(lock, t), j) && Queueing(run(j), p, t, lock)
  {
    QueueingKeepsOn(run, plan, i, p, t, lock);
    QueueingLetsMove(run, i, p, t, lock);
    j := MovesWhile(run, plan, LockOwner(lock, t), (k: nat) => Queueing(run(k), p, t, lock), i);
  }

  lemma QueueingKeepsOn(run: nat -> Bus, plan: nat -> Option<Step>, i: nat, p: Pid, t: Tid, lock: TopicLock)
    requires IsRun(run, plan) && lock != Open
    ensures KeepsOn(plan, LockOwner(lock, t), (k: nat) => Queueing(run(k), p, t, lock), i)
  {
    forall k: nat | Queueing(run(k), p, t, lock) && !Took(plan, LockOwner(lock, t), k)
      ensures Queueing(run(k + 1), p, t, lock)
    {
      QueueingStays(run, plan, k, p, t, lock);
    }
  }

  lemma QueueingLetsMove(run: nat -> Bus, i: nat, p: Pid, t: Tid, lock: TopicLock)
    requires lock != Open
    ensures LetsMove(run, LockOwner(lock, t), (k: nat) => Queueing(run(k), p, t, lock), i)
  {
    forall k: nat | Queueing(run(k), p, t, lock)
      ensures Recurs(Movable(run, LockOwner(lock, t)), k)
    {
      OwnerCanMove(run(k), p, t, lock);
      MovableNow(run, LockOwner(lock, t), k, k);
    }
  }

  lemma OwnerCanMove(s: Bus, p: Pid, t: Tid, lock: TopicLock)
    requires Queueing(s, p, t, lock) && lock != Open
    ensures CanMove(s, LockOwner(lock, t))
  {
    LockHolderCanMove(s, t);
  }

  lemma Handover(run: nat -> Bus, plan: nat -> Option<Step>, j: nat, p: Pid, t: Tid, lock: TopicLock)
    requires IsRun(run, plan) && Queueing(run(j), p, t, lock) && lock != Open && Took(plan, LockOwner(lock, t), j)
    ensures Recurs(Movable(run, CallOf(p)), j)
  {
    assert RunStep(run, plan, j);
    var step := plan(j).value;
    HolderOpens(run(j), step, p, t);
    HolderStays(run(j), step, p);
    ReleaseEnabled(run(j + 1), p);
    MovableNow(run, CallOf(p), j, j + 1);
  }

  // ---------------------------------------------------------------- runs: b.mu

  ghost predicate Holding(s: Bus, p: Pid, c: Proc) {
    Reachable(s) && s.mu == ByCall(p) && s.closer == CloseLock && p < |s.calls| && s.calls[p] == c
  }

  lemma HoldingStays(run: nat -> Bus, plan: nat -> Option<Step>, i: nat, p: Pid, c: Proc)
    requires IsRun(run, plan) && Holding(run(i), p, c) && !Took(plan, CallOf(p), i)
    ensures Holding(run(i + 1), p, c)
  {
    assert RunStep(run, plan, i);
    ReachableNext(run, plan, i);
    if plan(i).Some? { HolderStays(run(i), plan(i).value, p); }
  }

  /** The holder of `b.mu` can move, now or as soon as the topic lock it waits for is opened. */
  lemma HolderMovable(run: nat -> Bus, plan: nat -> Option<Step>, i: nat, p: Pid, c: Proc)
    requires IsRun(run, plan) && StronglyFair(run, plan) && Holding(run(i), p, c)
    ensures Recurs(Movable(run, CallOf(p)), i)
  {
    var s := run(i);
    HolderIs(s, p);
    TargetIs(s, p);
    if c.Subscribe? && c.spc.SubLockTopic? && s.ts[c.spc.t].lock != Open {
      TopicFreed(run, plan, i, p, c.spc.t, s.ts[c.spc.t].lock);
    } else {
      ReleaseEnabled(s, p);
      MovableNow(run, CallOf(p), i, i);
    }
  }

  lemma TargetIs(s: Bus, p: Pid)
    requires Reachable(s) && p < |s.calls|
    ensures TargetOk(s.calls[p], s.ts)
  {
    ReachableIsGood(s);
  }

  lemma ReleaseEnabled(s: Bus, p: Pid)
    requires p < |s.calls| && HoldsBus(s.calls[p])
    requires s.calls[p].Subscribe? && s.calls[p].spc.SubLockTopic? ==>
      s.calls[p].spc.t < |s.ts| && s.ts[s.calls[p].spc.t].lock == Open
    ensures CanMove(s, CallOf(p))
  {
    var step := if s.calls[p].Publish? then RunPublish(p, Send) else RunSubscribe(p);
    assert Enabled(s, step) && Mover(step) == Some(CallOf(p));
  }

  /** Steps until the holder gives `b.mu` back. */
  function HolderRank(c: Proc): nat {
    if c.Subscribe? && c.spc.SubCheck? then 3 else if c.Subscribe? && c.spc.SubLockTopic? then 2 else 1
  }

  lemma HolderProceeds(s: Bus, step: Step, p: Pid)
    requires s.mu == ByCall(p) && s.closer == CloseLock && p < |s.calls| && HoldsBus(s.calls[p])
    requires Enabled(s, step) && Mover(step) == Some(CallOf(p))
    ensures var s' := Apply(s, step);
      s'.closer == CloseLock && p < |s'.calls| && (s'.mu == Free || HolderRank(s'.calls[p]) < HolderRank(s.calls[p]))
  {
    if s.calls[p].Publish? {
      assert step.RunPublish?;
    } else {
      assert step.RunSubscribe?;
    }
  }

  /** While Close waits for `b.mu`, the lock is free at some later instant. */
  lemma {:induction false} MuFreed(run: nat -> Bus, plan: nat -> Option<Step>, i: nat, p: Pid, c: Proc) returns (m: nat)
    requires IsRun(run, plan) && StronglyFair(run, plan) && Holding(run(i), p, c)
    ensures i <= m && CanMove(run(m), Closer)
    decreases HolderRank(c)
  {
    var j := HolderMoves(run, plan, i, p, c);
    HolderMoved(run, plan, j, p, c);
    if run(j + 1).mu == Free {
      m := j + 1;
      CloserReady(run(m));
    } else {
      m := MuFreed(run, plan, j + 1, p, run(j + 1).calls[p]);
    }
  }

  lemma HolderMoves(run: nat -> Bus, plan: nat -> Option<Step>, i: nat, p: Pid, c: Proc) returns (j: nat)
    requires IsRun(run, plan) && StronglyFair(run, plan) && Holding(run(i), p, c)
    ensures i <= j && Took(plan, CallOf(p), j) && Holding(run(j), p, c)
  {
    var holds := (k: nat) => Holding(run(k), p, c);
    forall k: nat | i <= k && holds(k)
      ensures !Took(plan, CallOf(p), k) ==> holds(k + 1)
      ensures Recurs(Movable(run, CallOf(p)), k)
    {
      if !Took(plan, CallOf(p), k) { HoldingStays(run, plan, k, p, c); }
      HolderMovable(run, plan, k, p, c);
    }
    j := MovesWhile(run, plan, CallOf(p), holds, i);
  }

  lemma HolderMoved(run: nat -> Bus, plan: nat -> Option<Step>, j: nat, p: Pid, c: Proc)
    requires IsRun(run, plan) && Holding(run(j), p, c) && Took(plan, CallOf(p), j)
    ensures run(j + 1).closer == CloseLock && p < |run(j + 1).calls|
    ensures run(j + 1).mu == Free ||
      (Holding(run(j + 1), p, run(j + 1).calls[p]) && HolderRank(run(j + 1).calls[p]) < HolderRank(c))
  {
    assert RunStep(run, plan, j);
    ReachableNext(run, plan, j);
    HolderIs(run(j), p);
    HolderProceeds(run(j), plan(j).value, p);
    if run(j + 1).mu != Free { StillHeldBy(run(j), plan(j).value, p); }
  }

  lemma CloserReady(s: Bus)
    requires s.closer == CloseMark || (s.closer == CloseLock && s.mu == Free)
    ensures CanMove(s, Closer)
  {
    assert Enabled(s, RunClose(0)) && Mover(RunClose(0)) == Some(Closer);
  }

  lemma StillHeldBy(s: Bus, step: Step, p: Pid)
    requires s.mu == ByCall(p) && p < |s.calls| && HoldsBus(s.calls[p])
    requires Enabled(s, step) && Mover(step) == Some(CallOf(p)) && Apply(s, step).mu != Free
    ensures Apply(s, step).mu == ByCall(p)
  {
  }

  // ---------------------------------------------------------------- Close takes the lock, and sets `closed`

  ghost predicate Waiting(s: Bus) { Reachable(s) && s.closer == CloseLock }

  ghost predicate Marking(s: Bus) { Reachable(s) && s.closer == CloseMark }

  lemma CloserStepsOnly(run: nat -> Bus, plan: nat -> Option<Step>, i: nat)
    requires IsRun(run, plan) && (Waiting(run(i)) || Marking(run(i))) && !Took(plan, Closer, i)
    ensures Reachable(run(i + 1)) && run(i + 1).closer == run(i).closer
  {
    assert RunStep(run, plan, i);
    ReachableNext(run, plan, i);
    if plan(i).Some? { CloserStays(run(i), plan(i).value); }
  }

  lemma CloserGetsOn(run: nat -> Bus, plan: nat -> Option<Step>, i: nat)
    requires IsRun(run, plan) && (Waiting(run(i)) || Marking(run(i))) && Took(plan, Closer, i)
    ensures Reachable(run(i + 1)) && run(i + 1).closer == if Waiting(run(i)) then CloseMark else run(i + 1).closer
    ensures Marking(run(i)) ==> run(i + 1).closed
  {
    assert RunStep(run, plan, i);
    ReachableNext(run, plan, i);
  }

  lemma CloserMovable(run: nat -> Bus, plan: nat -> Option<Step>, i: nat)
    requires IsRun(run, plan) && StronglyFair(run, plan) && Waiting(run(i))
    ensures Recurs(Movable(run, Closer), i)
  {
    if run(i).mu == Free {
      CloserReady(run(i));
      MovableNow(run, Closer, i, i);
    } else {
      HolderExists(run(i));
      var m := MuFreed(run, plan, i, run(i).mu.p, run(i).calls[run(i).mu.p]);
      MovableNow(run, Closer, i, m);
    }
  }

  lemma HolderExists(s: Bus)
    requires Waiting(s) && s.mu != Free
    ensures s.mu.ByCall? && s.mu.p < |s.calls|
  {
    ReachableIsGood(s);
  }

  lemma WaitingKeepsOn(run: nat -> Bus, plan: nat -> Option<Step>, i: nat)
    requires IsRun(run, plan)
    ensures KeepsOn(plan, Closer, (k: nat) => Waiting(run(k)), i)
    ensures KeepsOn(plan, Closer, (k: nat) => Marking(run(k)), i)
  {
    forall k: nat | !Took(plan, Closer, k) && (Waiting(run(k)) || Marking(run(k)))
      ensures Reachable(run(k + 1)) && run(k + 1).closer == run(k).closer
    {
      CloserStepsOnly(run, plan, k);
    }
  }

  lemma WaitingLetsMove(run: nat -> Bus, plan: nat -> Option<Step>, i: nat)
    requires IsRun(run, plan) && StronglyFair(run, plan)
    ensures LetsMove(run, Closer, (k: nat) => Waiting(run(k)), i)
  {
    forall k: nat | Waiting(run(k))
      ensures Recurs(Movable(run, Closer), k)
    {
      CloserMovable(run, plan, k);
    }
  }

  lemma MarkingLetsMove(run: nat -> Bus, i: nat)
    ensures LetsMove(run, Closer, (k: nat) => Marking(run(k)), i)
  {
    forall k: nat | Marking(run(k))
      ensures Recurs(Movable(run, Closer), k)
    {
      CloserReady(run(k));
      MovableNow(run, Closer, k, k);
    }
  }

  lemma LockTaken(run: nat -> Bus, plan: nat -> Option<Step>, i: nat) returns (n: nat)
    requires IsRun(run, plan) && StronglyFair(run, plan) && Waiting(run(i))
    ensures i <= n && Marking(run(n))
  {
    var j := WaiterMoves(run, plan, i);
    CloserGetsOn(run, plan, j);
    n := j + 1;
  }

  lemma WaiterMoves(run: nat -> Bus, plan: nat -> Option<Step>, i: nat) returns (j: nat)
    requires IsRun(run, plan) && StronglyFair(run, plan) && Waiting(run(i))
    ensures i <= j && Took(plan, Closer, j) && Waiting(run(j))
  {
    WaitingKeepsOn(run, plan, i);
    WaitingLetsMove(run, plan, i);
    j := MovesWhile(run, plan, Closer, (k: nat) => Waiting(run(k)), i);
  }

  lemma ClosedIsSet(run: nat -> Bus, plan: nat -> Option<Step>, i: nat) returns (n: nat)
    requires IsRun(run, plan) && StronglyFair(run, plan) && Marking(run(i))
    ensures i <= n && Reachable(run(n)) && run(n).closed
  {
    var j := MarkerMoves(run, plan, i);
    CloserGetsOn(run, plan, j);
    n := j + 1;
  }

  lemma MarkerMoves(run: nat -> Bus, plan: nat -> Option<Step>, i: nat) returns (j: nat)
    requires IsRun(run, plan) && StronglyFair(run, plan) && Marking(run(i))
    ensures i <= j && Took(plan, Closer, j) && Marking(run(j))
  {
    WaitingKeepsOn(run, plan, i);
    MarkingLetsMove(run, i);
    j := MovesWhile(run, plan, Closer, (k: nat) => Marking(run(k)), i);
  }

  // ---------------------------------------------------------------- after that

  /** A call that arrives or is turned away does not take from a goroutine inside the bus what it can do. */
  lemma ArrivalKeepsInternal(s: Bus, a: Step, step: Step)
    requires s.closed && Enabled(s, a) && Arrival(s, a) && Internal(s, step) && Mover(a) != Mover(step)
    ensures Internal(Apply(s, a), step)
  {
    ArrivalEffect(s, a);
    SameMoves(s, Apply(s, a), step);
  }

  /** All an arrival changes is its own call, which is new or at its entry. */
  ghost predicate OnlyCalls(s: Bus, s': Bus) {
    && s' == s.(calls := s'.calls) && |s.calls| <= |s'.calls|
    && forall p :: 0 <= p < |s.calls| ==> s'.calls[p] == s.calls[p] || TurnedAway(s.calls[p], s'.calls[p])
  }

  predicate TurnedAway(c: Proc, c': Proc) {
    c.waiter == Outside && c'.waiter == Outside &&
    if c.Publish? then c.ppc == PubEntry && c'.Publish? && c'.ppc.PubReturned?
    else c.spc == SubEntry && c'.Subscribe? && c'.spc.SubFailed?
  }

  lemma ArrivalEffect(s: Bus, a: Step)
    requires s.closed && Enabled(s, a) && Arrival(s, a)
    ensures OnlyCalls(s, Apply(s, a))
  {
  }

  lemma SameMoves(s: Bus, s': Bus, step: Step)
    requires OnlyCalls(s, s') && Internal(s, step)
    ensures Internal(s', step)
  {
    match step
    case RunPublish(p, branch) => assert s'.calls[p] == s.calls[p] || TurnedAway(s.calls[p], s'.calls[p]);
    case RunSubscribe(p) => assert s'.calls[p] == s.calls[p] || TurnedAway(s.calls[p], s'.calls[p]);
    case RunWorker(t, _) => if s.ts[t].worker.Calling? { NestedStaysDone(s, s', s.ts[t].worker.nested); }
    case RunClose(_) =>
  }

  lemma NestedStaysDone(s: Bus, s': Bus, n: Nested)
    requires OnlyCalls(s, s') && NestedDone(s, n)
    ensures NestedDone(s', n)
  {
  }

  ghost predicate Ready(s: Bus, step: Step) { Reachable(s) && s.closed && Internal(s, step) }

  lemma InsideStep(s: Bus) returns (step: Step)
    requires Reachable(s) && s.closed && s.closer != CloseReturned
    ensures Ready(s, step) && Mover(step).Some?
  {
    ReachableIsSound(s);
    step := SomeoneMoves(s);
  }

  lemma ReadyCanMove(s: Bus, step: Step)
    requires Ready(s, step) && Mover(step).Some?
    ensures CanMove(s, Mover(step).value)
  {
    assert Enabled(s, step);
  }

  /** What a goroutine can do it still can after any instant without progress at which it did not move. */
  lemma ReadyStays(run: nat -> Bus, plan: nat -> Option<Step>, k: nat, step: Step)
    requires IsRun(run, plan) && Ready(run(k), step) && Mover(step).Some? && !Took(plan, Mover(step).value, k)
    requires !Progress(run, plan, k)
    ensures Ready(run(k + 1), step)
  {
    assert RunStep(run, plan, k);
    ReachableNext(run, plan, k);
    if plan(k).Some? {
      ArrivalKeepsInternal(run(k), plan(k).value, step);
      ArrivalEffect(run(k), plan(k).value);
    }
    ClosedNext(run, plan, k);
  }

  /** When a goroutine that is ready moves, that is progress: its step is no arrival. */
  lemma InsideMove(run: nat -> Bus, plan: nat -> Option<Step>, j: nat, step: Step)
    requires IsRun(run, plan) && Ready(run(j), step) && Mover(step).Some? && Took(plan, Mover(step).value, j)
    ensures Progress(run, plan, j)
  {
    assert RunStep(run, plan, j);
  }

  /** Some goroutine inside the bus moves, or Close has returned, at some later instant. */
  lemma SomeProgress(run: nat -> Bus, plan: nat -> Option<Step>, i: nat)
    requires IsRun(run, plan) && StronglyFair(run, plan) && Reachable(run(i)) && run(i).closed
    ensures Recurs((k: nat) => Progress(run, plan, k), i)
  {
    var progress := (k: nat) => Progress(run, plan, k);
    if run(i).closer == CloseReturned {
      assert progress(i);
    } else {
      var step := InsideStep(run(i));
      var g := Mover(step).value;
      var holds := (k: nat) => Ready(run(k), step);
      forall k: nat | i <= k && holds(k)
        ensures !Took(plan, g, k) ==> holds(k + 1) || progress(k)
        ensures Recurs(Movable(run, g), k)
      {
        ReadyCanMove(run(k), step);
        MovableNow(run, g, k, k);
        if !Took(plan, g, k) && !Progress(run, plan, k) { ReadyStays(run, plan, k, step); }
      }
      var j := MovesUnless(run, plan, g, holds, progress, i);
      if !progress(j) { InsideMove(run, plan, j, step); }
      assert progress(j);
    }
  }

  lemma ClosedNext(run: nat -> Bus, plan: nat -> Option<Step>, i: nat)
    requires IsRun(run, plan) && run(i).closed
    ensures run(i + 1).closed
  {
    assert RunStep(run, plan, i);
  }

  lemma {:induction false} StaysReachable(run: nat -> Bus, plan: nat -> Option<Step>, i: nat, j: nat)
    requires IsRun(run, plan) && i <= j && Reachable(run(i)) && run(i).closed
    ensures Reachable(run(j)) && run(j).closed
  {
    if i < j {
      StaysReachable(run, plan, i, j - 1);
      ReachableNext(run, plan, j - 1);
      ClosedNext(run, plan, j - 1);
    }
  }

  /** Fairness to each goroutine gives the fairness that the measure needs. */
  lemma FairToAllIsFair(run: nat -> Bus, plan: nat -> Option<Step>, i: nat)
    requires IsRun(run, plan) && StronglyFair(run, plan) && Reachable(run(i)) && run(i).closed
    ensures Fair(run, plan)
  {
    var progress := (k: nat) => Progress(run, plan, k);
    forall k: nat
      ensures Recurs(progress, k)
    {
      var later := if k < i then i else k;
      StaysReachable(run, plan, i, later);
      SomeProgress(run, plan, later);
      var m: nat :| later <= m && progress(m);
      assert k <= m && progress(m);
    }
  }

  /** In every run that is fair to each goroutine, from any instant at which Close has been called, Close returns:
      whatever keeps arriving, whoever contends for its lock, and even if handlers block on their own full topics. */
  lemma CloseReturnsInFairRuns(run: nat -> Bus, plan: nat -> Option<Step>, i: nat) returns (n: nat)
    requires Reachable(run(i)) && run(i).closer != CloseIdle && IsRun(run, plan) && StronglyFair(run, plan)
    ensures n >= i && run(n).closer == CloseReturned
  {
    var m := ClosedLater(run, plan, i);
    FairToAllIsFair(run, plan, m);
    n := FairRunCloses(run, plan, m);
  }

  lemma ClosedLater(run: nat -> Bus, plan: nat -> Option<Step>, i: nat) returns (m: nat)
    requires IsRun(run, plan) && StronglyFair(run, plan) && Reachable(run(i)) && run(i).closer != CloseIdle
    ensures i <= m && Reachable(run(m)) && run(m).closed
  {
    if run(i).closer == CloseLock {
      var k := LockTaken(run, plan, i);
      m := ClosedIsSet(run, plan, k);
    } else if run(i).closer == CloseMark {
      m := ClosedIsSet(run, plan, i);
    } else {
      ClosedFromMark(run(i));
      m := i;
    }
  }

  lemma ClosedFromMark(s: Bus)
    requires Reachable(s) && s.closer != CloseIdle && s.closer != CloseLock && s.closer != CloseMark
    ensures s.closed
  {
    ReachableIsGood(s);
  }
}
