/** How one step changes calls and snapshots, and whose registrations the snapshots hold. */
module BusHistory {
  import opened BusModel
  import opened BusSafety
  import opened BusDelivery
  import opened BusOwners
  import opened Options

  // ---------------------------------------------------------------- calls

  predicate Installing(pc: SubPC) {
    pc.SubEntry? || pc.SubLock? || pc.SubCheck? || pc.SubLockTopic? || pc.SubHandOff? || pc.SubInstall?
  }

  predicate SubNext(pc: SubPC, pc': SubPC) {
    match pc
    case SubInstall(t) => pc'.Installed? && pc'.t == t
    case Installed(t, id, from) => pc' == UnsubLock(t, id, from)
    case UnsubLock(t, id, from) => pc' == UnsubFilter(t, id, from)
    case UnsubFilter(t, id, from) => pc'.Removed? && pc'.t == t && pc'.id == id && pc'.from == from
    case SubFailed(_) => false
    case Removed(_, _, _, _) => false
    case _ => Installing(pc') || pc'.SubFailed?
  }

  predicate Successor(c: Proc, c': Proc) {
    || c' == c
    || (c.Publish? && c'.Publish? && c'.topic == c.topic && c'.event == c.event && !c.ppc.PubReturned?)
    || (c.Subscribe? && c'.Subscribe? && c'.topic == c.topic && c'.handler == c.handler && SubNext(c.spc, c'.spc))
  }

  /** The call that a step moves. */
  function Actor(step: Step): Option<Pid> {
    match step
    case RunPublish(p, _) => Some(p)
    case RunSubscribe(p) => Some(p)
    case StartUnsubscribe(p, _) => Some(p)
    case _ => None
  }

  lemma StepSuccessor(s: Bus, step: Step, q: Pid)
    requires Enabled(s, step) && q < |s.calls|
    ensures var s' := Apply(s, step);
      q < |s'.calls| && Successor(s.calls[q], s'.calls[q]) && (s'.calls[q] != s.calls[q] ==> Actor(step) == Some(q))
  {
    match step
    case RunPublish(p, branch) => PublishSuccessor(s, p, branch);
    case RunSubscribe(p) => SubscribeSuccessor(s, p);
    case _ => OtherStepSuccessor(s, step, q);
  }

  lemma OtherStepSuccessor(s: Bus, step: Step, q: Pid)
    requires Enabled(s, step) && q < |s.calls| && !step.RunPublish? && !step.RunSubscribe?
    ensures var s' := Apply(s, step);
      q < |s'.calls| && Successor(s.calls[q], s'.calls[q]) && (s'.calls[q] != s.calls[q] ==> Actor(step) == Some(q))
  {
    if step.RunClose? { assert CloseStep(s, step.t).calls == s.calls; }
  }

  lemma CallsNeverFewer(s: Bus, step: Step)
    requires Enabled(s, step)
    ensures |s.calls| <= |Apply(s, step).calls|
  {
    if s.calls != [] { StepSuccessor(s, step, |s.calls| - 1); }
  }

  /** A step adds at most one call, the one it starts. */
  lemma AddedCall(s: Bus, step: Step)
    requires Enabled(s, step)
    ensures |Apply(s, step).calls| <= |s.calls| + 1
    ensures |Apply(s, step).calls| == |s.calls| + 1 ==> NewCall(Apply(s, step).calls[|s.calls|], step)
  {
    match step
    case RunPublish(p, branch) =>
    case RunSubscribe(p) =>
    case RunWorker(_, _) =>
    case RunClose(t) => assert CloseStep(s, t).calls == s.calls;
    case StartPublish(_, _, _) =>
    case StartSubscribe(_, _, _) =>
    case StartUnsubscribe(_, _) =>
    case StartClose =>
  }

  predicate NewCall(c: Proc, step: Step) {
    && (c.Publish? ==> step.StartPublish? && c.topic == step.topic && c.ppc == PubEntry)
    && (c.Subscribe? ==> step.StartSubscribe? && c.handler == step.handler && c.spc == SubEntry)
  }

  lemma PublishSuccessor(s: Bus, p: Pid, branch: Branch)
    requires PublishReady(s, p, branch)
    ensures Successor(s.calls[p], PublishMove(s, p, branch).call)
  {
  }

  lemma SubscribeSuccessor(s: Bus, p: Pid)
    requires SubscribeReady(s, p)
    ensures Successor(s.calls[p], SubscribeMove(s, p).call)
    ensures SubNext(s.calls[p].spc, SubscribeMove(s, p).call.spc)
  {
  }

  // ---------------------------------------------------------------- snapshots

  function TopicOf(c: Proc): Option<Tid> {
    if IdOf(c) == None then None else Target(c)
  }

  /** `e` is, or was, the entry of call `c` on topic `t`. */
  predicate OriginOf(c: Proc, t: Tid, e: HandlerEntry) {
    c.Subscribe? && c.handler == Some(e.handler) && IdOf(c) == Some(e.id) && TopicOf(c) == Some(t)
  }

  ghost predicate HasOrigin(calls: seq<Proc>, t: Tid, e: HandlerEntry) {
    exists p :: 0 <= p < |calls| && OriginOf(calls[p], t, e)
  }

  ghost predicate SnapOwned(calls: seq<Proc>, t: Tid, snap: seq<HandlerEntry>) {
    forall i :: 0 <= i < |snap| ==> HasOrigin(calls, t, snap[i])
  }

  ghost predicate SnapsOwned(calls: seq<Proc>, t: Tid, snaps: seq<seq<HandlerEntry>>) {
    forall i :: 0 <= i < |snaps| ==> SnapOwned(calls, t, snaps[i])
  }

  ghost predicate History(s: Bus) {
    && Owners(s.calls, s.ts)
    && (forall t :: 0 <= t < |s.ts| ==> SnapsOwned(s.calls, t, s.ts[t].snaps))
  }

  /** Snapshots are only ever added, each equal to the subscriber list of its moment. */
  predicate SnapsGrow(ts: seq<TopicState>, ts': seq<TopicState>, t: Tid) {
    t < |ts'| &&
    if t < |ts| then ts'[t].snaps == ts[t].snaps || ts'[t].snaps == ts[t].snaps + [ts[t].entries]
    else ts'[t].snaps == []
  }

  lemma StepSnaps(s: Bus, step: Step, t: Tid)
    requires Enabled(s, step) && t < |Apply(s, step).ts|
    ensures SnapsGrow(s.ts, Apply(s, step).ts, t)
    ensures t < |s.ts| && !step.RunWorker? ==> Apply(s, step).ts[t].snaps == s.ts[t].snaps
  {
    match step
    case RunPublish(p, branch) => PublishSnaps(s, p, branch, t);
    case RunSubscribe(p) => SubscribeSnaps(s, p, t);
    case RunWorker(u, budget) => WorkerSnaps(s, u, budget);
    case RunClose(u) => CloseSnaps(s, u, t);
    case StartPublish(_, _, w) => AwaitSnaps(s, w, OnPublish(|s.calls|), t);
    case StartSubscribe(_, _, w) => AwaitSnaps(s, w, OnSubscribe(|s.calls|), t);
    case StartUnsubscribe(p, w) => AwaitSnaps(s, w, OnUnsubscribe(p), t);
    case StartClose =>
  }

  lemma PublishSnaps(s: Bus, p: Pid, branch: Branch, t: Tid)
    requires PublishReady(s, p, branch) && t < |Commit(s, p, PublishMove(s, p, branch)).ts|
    ensures var ts' := Commit(s, p, PublishMove(s, p, branch)).ts;
      if t < |s.ts| then ts'[t].snaps == s.ts[t].snaps else ts'[t].snaps == []
  {
    PublishShape(s, p, branch);
  }

  lemma CloseSnaps(s: Bus, u: Tid, t: Tid)
    requires CloseReady(s, u) && t < |s.ts|
    ensures CloseStep(s, u).ts[t].snaps == s.ts[t].snaps && |CloseStep(s, u).ts| == |s.ts|
  {
  }

  lemma SubscribeSnaps(s: Bus, p: Pid, t: Tid)
    requires SubscribeReady(s, p) && t < |Commit(s, p, SubscribeMove(s, p)).ts|
    ensures var ts' := Commit(s, p, SubscribeMove(s, p)).ts;
      if t < |s.ts| then ts'[t].snaps == s.ts[t].snaps else ts'[t].snaps == []
  {
    SubscribeShape(s, p);
  }

  lemma WorkerSnaps(s: Bus, u: Tid, budget: nat)
    requires WorkerReady(s, u)
    ensures var x := WorkerTurn(s, u, budget).x;
      x.snaps == s.ts[u].snaps || x.snaps == s.ts[u].snaps + [s.ts[u].entries]
  {
  }

  lemma AwaitSnaps(s: Bus, w: Waiter, n: Nested, t: Tid)
    requires CanCall(s, w) && t < |s.ts|
    ensures Await(s, w, n).ts[t].snaps == s.ts[t].snaps && |Await(s, w, n).ts| == |s.ts|
  {
  }

  lemma OriginStays(s: Bus, step: Step, t: Tid, e: HandlerEntry)
    requires Enabled(s, step) && HasOrigin(s.calls, t, e)
    ensures HasOrigin(Apply(s, step).calls, t, e)
  {
    var p :| 0 <= p < |s.calls| && OriginOf(s.calls[p], t, e);
    StepSuccessor(s, step, p);
    assert OriginOf(Apply(s, step).calls[p], t, e);
  }

  lemma OwnerIsOrigin(calls: seq<Proc>, t: Tid, e: HandlerEntry)
    requires HasOwner(calls, t, e)
    ensures HasOrigin(calls, t, e)
  {
    var p :| 0 <= p < |calls| && OwnerOf(calls[p], t, e);
    assert OriginOf(calls[p], t, e);
  }

  lemma SnapStays(s: Bus, step: Step, t: Tid, snap: seq<HandlerEntry>)
    requires Enabled(s, step) && SnapOwned(s.calls, t, snap)
    ensures SnapOwned(Apply(s, step).calls, t, snap)
  {
    forall i | 0 <= i < |snap|
      ensures HasOrigin(Apply(s, step).calls, t, snap[i])
    {
      assert HasOrigin(s.calls, t, snap[i]);
      OriginStays(s, step, t, snap[i]);
    }
  }

  lemma EntriesSnapOwned(calls: seq<Proc>, t: Tid, entries: seq<HandlerEntry>)
    requires TopicOwned(calls, t, entries)
    ensures SnapOwned(calls, t, entries)
  {
    forall i | 0 <= i < |entries|
      ensures HasOrigin(calls, t, entries[i])
    {
      OwnerIsOrigin(calls, t, entries[i]);
    }
  }

  lemma TopicKeepsHistory(s: Bus, step: Step, t: Tid)
    requires History(s) && Enabled(s, step) && t < |Apply(s, step).ts|
    ensures SnapsOwned(Apply(s, step).calls, t, Apply(s, step).ts[t].snaps)
  {
    var s' := Apply(s, step);
    StepSnaps(s, step, t);
    if t < |s.ts| {
      EntriesSnapOwned(s.calls, t, s.ts[t].entries);
      forall i | 0 <= i < |s'.ts[t].snaps|
        ensures SnapOwned(s'.calls, t, s'.ts[t].snaps[i])
      {
        assert SnapsOwned(s.calls, t, s.ts[t].snaps);
        SnapStays(s, step, t, s'.ts[t].snaps[i]);
      }
    }
  }

  lemma StepKeepsHistory(s: Bus, step: Step)
    requires History(s) && Enabled(s, step)
    ensures History(Apply(s, step))
  {
    StepKeepsOwners(s, step);
    forall t | 0 <= t < |Apply(s, step).ts|
      ensures SnapsOwned(Apply(s, step).calls, t, Apply(s, step).ts[t].snaps)
    {
      TopicKeepsHistory(s, step, t);
    }
  }

  lemma {:induction false} ExecHasHistory(size: int, schedule: seq<Step>)
    requires Exec(New(size), schedule).Some?
    ensures History(Exec(New(size), schedule).value)
  {
    if schedule != [] {
      ExecHasHistory(size, schedule[..|schedule| - 1]);
      StepKeepsHistory(Exec(New(size), schedule[..|schedule| - 1]).value, schedule[|schedule| - 1]);
    }
  }

  lemma ReachableHasHistory(s: Bus)
    requires Reachable(s)
    ensures History(s)
  {
    var size: int, schedule: seq<Step> :| Exec(New(size), schedule) == Some(s);
    ExecHasHistory(size, schedule);
  }

  // ---------------------------------------------------------------- handler calls come from registrations

  lemma {:induction false} RoundsOrigin(envs: seq<Envelope>, snaps: seq<seq<HandlerEntry>>, calls: seq<Proc>, t: Tid, i: nat)
    requires |envs| == |snaps| && i < |Rounds(envs, snaps)| && SnapsOwned(calls, t, snaps)
    ensures var d := Rounds(envs, snaps)[i]; HasOrigin(calls, t, HandlerEntry(d.id, d.handler))
  {
    var n := |snaps| - 1;
    if i < |Rounds(envs[..n], snaps[..n])| {
      assert forall j :: 0 <= j < n ==> snaps[..n][j] == snaps[j];
      RoundsOrigin(envs[..n], snaps[..n], calls, t, i);
    } else {
      assert SnapOwned(calls, t, snaps[n]);
      RoundOrigin(envs[n], snaps[n], calls, t, i - |Rounds(envs[..n], snaps[..n])|);
    }
  }

  lemma {:induction false} RoundOrigin(env: Envelope, snap: seq<HandlerEntry>, calls: seq<Proc>, t: Tid, i: nat)
    requires i < |Round(env, snap)| && SnapOwned(calls, t, snap)
    ensures var d := Round(env, snap)[i]; HasOrigin(calls, t, HandlerEntry(d.id, d.handler))
  {
    var n := |snap| - 1;
    if i < |Round(env, snap[..n])| {
      assert forall j :: 0 <= j < n ==> snap[..n][j] == snap[j];
      RoundOrigin(env, snap[..n], calls, t, i);
    } else {
      assert HasOrigin(calls, t, snap[n]);
      assert snap[n] == HandlerEntry(snap[n].id, snap[n].handler);
    }
  }

  /** Every handler call was made for a registration that some Subscribe call installed on that topic. */
  lemma DeliveryHasOrigin(s: Bus, t: Tid, i: nat)
    requires Good(s) && History(s) && t < |s.ts| && i < |s.ts[t].delivered|
    ensures var d := s.ts[t].delivered[i]; HasOrigin(s.calls, t, HandlerEntry(d.id, d.handler))
  {
    var x := s.ts[t];
    assert TopicOk(s.calls, s.nextSubID, x) && SnapsOwned(s.calls, t, x.snaps);
    if x.worker.Dispatching? {
      MidRoundOrigin(s.calls, t, x, x.worker.env, x.worker.snap, x.worker.next, i);
    } else if x.worker.Calling? {
      MidRoundOrigin(s.calls, t, x, x.worker.env, x.worker.snap, x.worker.next + 1, i);
    } else {
      assert x.worker.Receiving? || x.worker.Exited? ==> x.dispatched[..|x.snaps|] == x.dispatched;
      RoundsOrigin(x.dispatched[..|x.snaps|], x.snaps, s.calls, t, i);
    }
  }

  lemma MidRoundOrigin(calls: seq<Proc>, t: Tid, x: TopicState, env: Envelope, snap: seq<HandlerEntry>, n: nat, i: nat)
    requires SnapsOwned(calls, t, x.snaps) && InRound(x, env, snap, n) && i < |x.delivered|
    ensures HasOrigin(calls, t, HandlerEntry(x.delivered[i].id, x.delivered[i].handler))
  {
    var last := |x.snaps| - 1;
    var front := Rounds(x.dispatched[..last], x.snaps[..last]);
    assert SnapOwned(calls, t, x.snaps[last]);
    if i < |front| {
      assert forall j :: 0 <= j < last ==> x.snaps[..last][j] == x.snaps[j];
      RoundsOrigin(x.dispatched[..last], x.snaps[..last], calls, t, i);
    } else {
      assert forall j :: 0 <= j < n ==> snap[..n][j] == snap[j];
      RoundOrigin(env, snap[..n], calls, t, i - |front|);
    }
  }
}
