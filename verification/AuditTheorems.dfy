/** What the audit bridge guarantees while other users of the bus act at the same time. */
module AuditTheorems {
  import opened BusModel
  import opened BusSafety
  import opened BusDelivery
  import opened BusOwners
  import opened BusHistory
  import opened BusTheorems
  import opened AuditBridge
  import opened Options

  // ---------------------------------------------------------------- all or nothing

  /** Before a successful Start, after a failed one and after Stop, no subscriber list holds a handler of the bridge. */
  lemma NoBridgeEntries(s: Sys, t: Tid, i: nat)
    requires Attainable(s) && (s.phase == Fresh || s.phase == Stopped)
    requires t < |s.bus.ts| && i < |s.bus.ts[t].entries|
    ensures s.bus.ts[t].entries[i].handler >= N
  {
    AttainableIsSound(s);
    var p := EntriesAreOwned(s.bus, t, s.bus.ts[t].entries[i]);
    assert Accounted(s.bus.calls[p], p, s.phase);
  }

  predicate StopCalled(phase: Phase) {
    phase == Stopped || (phase.Removing? && phase.stopping)
  }

  /** Once Stop has been called the bridge never runs again. */
  lemma {:induction false} StopIsFinal(s: Sys, actions: seq<Action>)
    requires StopCalled(s.phase) && Run(s, actions).Some?
    ensures StopCalled(Run(s, actions).value.phase)
  {
    if actions != [] {
      StopIsFinal(s, actions[..|actions| - 1]);
    }
  }

  ghost predicate OnlyEntry(ts: seq<TopicState>, k: nat, t: Tid, i: nat) {
    && t < |ts| && i < |ts[t].entries| && ts[t].entries[i].handler == k
    && forall u, j :: 0 <= u < |ts| && 0 <= j < |ts[u].entries| && ts[u].entries[j].handler == k ==> u == t && j == i
  }

  /** While the bridge runs, each binding has exactly one live handler on the whole bus, on its own topic. */
  lemma RunningHasEachHandlerOnce(s: Sys, k: nat) returns (t: Tid, i: nat)
    requires Attainable(s) && s.phase.Running? && k < N
    ensures OnlyEntry(s.bus.ts, k, t, i) && s.bus.ts[t].name == TopicName(k)
  {
    AttainableIsSound(s);
    ReachableIsGood(s.bus);
    ReachableHasHistory(s.bus);
    var own := s.phase.own;
    assert HeldOk(s.bus.calls, s.phase, k);
    var c := s.bus.calls[own[k]];
    assert Registered(c, s.bus.ts) && TargetOk(c, s.bus.ts);
    t := c.spc.t;
    i :| 0 <= i < |s.bus.ts[t].entries| && s.bus.ts[t].entries[i].id == c.spc.id;
    EntryOfBinding(s, k, t, i);
    forall u: nat, j: nat | u < |s.bus.ts| && j < |s.bus.ts[u].entries| && s.bus.ts[u].entries[j].handler == k
      ensures u == t && j == i
    {
      HandlerIsHeld(s, k, u, j);
      assert TopicOk(s.bus.calls, s.bus.nextSubID, s.bus.ts[t]);
    }
  }

  /** The entry with the id of the bridge's call for binding `k` holds the handler of that binding. */
  lemma EntryOfBinding(s: Sys, k: nat, t: Tid, i: nat)
    requires Reachable(s.bus) && Good(s.bus) && s.phase.Running? && k < |s.phase.own| == N
    requires HeldOk(s.bus.calls, s.phase, k) && t == s.bus.calls[s.phase.own[k]].spc.t
    requires t < |s.bus.ts| && i < |s.bus.ts[t].entries|
    requires s.bus.ts[t].entries[i].id == s.bus.calls[s.phase.own[k]].spc.id
    ensures s.bus.ts[t].entries[i].handler == k
  {
    var e := s.bus.ts[t].entries[i];
    var p := EntriesAreOwned(s.bus, t, e);
    SameIdSameCall(s.bus, p, s.phase.own[k]);
  }

  lemma SameIdSameCall(s: Bus, p: Pid, q: Pid)
    requires Good(s) && p < |s.calls| && q < |s.calls| && IdOf(s.calls[p]).Some? && IdOf(s.calls[p]) == IdOf(s.calls[q])
    ensures p == q
  {
    assert Ids(s.calls, s.nextSubID);
  }

  /** An entry with the handler of binding `k` belongs to the call that the bridge holds for `k`. */
  lemma HandlerIsHeld(s: Sys, k: nat, u: Tid, j: nat)
    requires Inv(s) && s.phase.Running? && k < N && u < |s.bus.ts| && j < |s.bus.ts[u].entries|
    requires s.bus.ts[u].entries[j].handler == k
    ensures s.phase.own[k] < |s.bus.calls| && OwnerOf(s.bus.calls[s.phase.own[k]], u, s.bus.ts[u].entries[j])
    ensures s.bus.calls[s.phase.own[k]].spc.Installed?
  {
    var p := EntriesAreOwned(s.bus, u, s.bus.ts[u].entries[j]);
    assert Accounted(s.bus.calls[p], p, s.phase);
    var i :| 0 <= i < N && s.phase.own[i] == p;
    assert HeldOk(s.bus.calls, s.phase, i);
  }

  // ---------------------------------------------------------------- everyone else's handlers

  /** The handlers on a subscriber list that are not the bridge's, in order. */
  function Others(entries: seq<HandlerEntry>): seq<HandlerEntry> {
    if entries == [] then []
    else
      var front := Others(entries[..|entries| - 1]);
      var last := entries[|entries| - 1];
      if last.handler >= N then front + [last] else front
  }

  predicate SameOthers(ts: seq<TopicState>, ts': seq<TopicState>, t: Tid) {
    t < |ts| && t < |ts'| && Others(ts'[t].entries) == Others(ts[t].entries)
  }

  lemma {:induction false} OthersWithout(entries: seq<HandlerEntry>, id: nat)
    requires forall e :: e in entries && e.id == id ==> e.handler < N
    ensures Others(Without(entries, id)) == Others(entries)
  {
    if entries != [] {
      var n := |entries| - 1;
      OthersWithout(entries[..n], id);
      OthersAppend(Without(entries[..n], id), entries[n]);
    }
  }

  /** Two handlers that are on a list before and after a run stand in the same order, whatever came and went. */
  lemma OrderStays(s: Sys, actions: seq<Action>, t: Tid, i: nat, j: nat, i': nat, j': nat)
    requires Attainable(s) && Run(s, actions).Some? && t < |s.bus.ts| && t < |Run(s, actions).value.bus.ts|
    requires var entries, entries' := s.bus.ts[t].entries, Run(s, actions).value.bus.ts[t].entries;
      i < j < |entries| && i' < |entries'| && j' < |entries'| && entries'[i'] == entries[i] && entries'[j'] == entries[j]
    ensures i' < j'
  {
    AttainableIsSound(s);
    RunKeepsInv(s, actions);
    EntriesOrdered(s.bus, t);
    EntriesOrdered(Run(s, actions).value.bus, t);
  }

  lemma EntriesOrdered(s: Bus, t: Tid)
    requires Reachable(s) && t < |s.ts|
    ensures Ordered(s.ts[t].entries, s.nextSubID)
  {
    ReachableIsGood(s);
    assert TopicOk(s.calls, s.nextSubID, s.ts[t]);
  }

  /** The step of a Subscribe or unsubscribe call of the bridge leaves the other handlers and their order alone. */
  lemma BridgeLeavesOthers(s: Sys, p: Pid, t: Tid)
    requires Attainable(s) && SubscribeReady(s.bus, p) && BridgeCall(s.bus.calls[p]) && t < |s.bus.ts|
    ensures SameOthers(s.bus.ts, Commit(s.bus, p, SubscribeMove(s.bus, p)).ts, t)
  {
    AttainableIsSound(s);
    ReachableIsGood(s.bus);
    SubscribeLeavesOthers(s.bus, p, t);
  }

  lemma SubscribeLeavesOthers(s: Bus, p: Pid, t: Tid)
    requires Reachable(s) && Good(s) && SubscribeReady(s, p) && BridgeCall(s.calls[p]) && t < |s.ts|
    ensures SameOthers(s.ts, Commit(s, p, SubscribeMove(s, p)).ts, t)
  {
    PutLeavesOthers(s, p);
    CommitLeavesOthers(s, p, SubscribeMove(s, p), t);
  }

  ghost predicate KeepsOthers(ts: seq<TopicState>, change: Change) {
    change.Put? ==> change.t < |ts| && Others(change.x.entries) == Others(ts[change.t].entries)
  }

  lemma CommitLeavesOthers(s: Bus, p: Pid, m: Move, t: Tid)
    requires p < |s.calls| && t < |s.ts| && KeepsOthers(s.ts, m.change)
    ensures SameOthers(s.ts, Commit(s, p, m).ts, t)
  {
  }

  lemma PutLeavesOthers(s: Bus, p: Pid)
    requires Reachable(s) && Good(s) && SubscribeReady(s, p) && BridgeCall(s.calls[p])
    ensures KeepsOthers(s.ts, SubscribeMove(s, p).change)
  {
    SubscribeShape(s, p);
    match s.calls[p].spc
    case SubInstall(u) => OthersAppend(s.ts[u].entries, HandlerEntry(s.nextSubID + 1, HandlerOf(s.calls[p])));
    case UnsubFilter(_, _, _) => RemovalLeavesOthers(s, p);
    case _ =>
  }

  lemma OthersAppend(entries: seq<HandlerEntry>, e: HandlerEntry)
    ensures Others(entries + [e]) == if e.handler >= N then Others(entries) + [e] else Others(entries)
  {
    assert (entries + [e])[..|entries|] == entries;
  }

  lemma RemovalLeavesOthers(s: Bus, p: Pid)
    requires Reachable(s) && Good(s) && p < |s.calls| && BridgeCall(s.calls[p]) && s.calls[p].spc.UnsubFilter?
    requires s.calls[p].spc.t < |s.ts|
    ensures var entries := s.ts[s.calls[p].spc.t].entries;
      Others(Without(entries, s.calls[p].spc.id)) == Others(entries)
  {
    var t, id := s.calls[p].spc.t, s.calls[p].spc.id;
    forall e | e in s.ts[t].entries && e.id == id
      ensures e.handler < N
    {
      var q := EntriesAreOwned(s, t, e);
      SameIdSameCall(s, p, q);
    }
    OthersWithout(s.ts[t].entries, id);
  }

  /** What the bridge itself does, in Start, in its rollback or in Stop, touches no list at once. */
  lemma StartAndStopLeaveOthers(s: Sys, a: Action, t: Tid)
    requires CanAct(s, a) && !a.Other? && t < |s.bus.ts|
    ensures SameOthers(s.bus.ts, Act(s, a).bus.ts, t)
  {
  }

  /** Only the steps of Subscribe and unsubscribe calls touch a subscriber list. */
  lemma OtherStepsLeaveLists(s: Bus, step: Step, t: Tid)
    requires Enabled(s, step) && !step.RunSubscribe? && t < |s.ts|
    ensures SameOthers(s.ts, Apply(s, step).ts, t)
  {
    match step
    case RunPublish(p, branch) => PublishLeavesLists(s, p, branch, t);
    case RunWorker(u, budget) => WorkerSameEntries(s, u, budget);
    case RunClose(u) =>
    case StartPublish(_, _, w) => AwaitSameEntries(s, w, OnPublish(|s.calls|));
    case StartSubscribe(_, _, w) => AwaitSameEntries(s, w, OnSubscribe(|s.calls|));
    case StartUnsubscribe(p, w) => AwaitSameEntries(s, w, OnUnsubscribe(p));
    case StartClose =>
  }

  lemma PublishLeavesLists(s: Bus, p: Pid, branch: Branch, t: Tid)
    requires PublishReady(s, p, branch) && t < |s.ts|
    ensures SameOthers(s.ts, Commit(s, p, PublishMove(s, p, branch)).ts, t)
  {
    PublishShape(s, p, branch);
  }

  /** The action is not a step of someone else's Subscribe or unsubscribe call. */
  predicate SparesLists(s: Sys, a: Action) {
    !(a.Other? && a.step.RunSubscribe? && a.step.p < |s.bus.calls| && !BridgeCall(s.bus.calls[a.step.p]))
  }

  lemma ActSparesOthers(s: Sys, a: Action, t: Tid)
    requires Inv(s) && CanAct(s, a) && SparesLists(s, a) && t < |s.bus.ts|
    ensures SameOthers(s.bus.ts, Act(s, a).bus.ts, t)
  {
    if !a.Other? {
      StartAndStopLeaveOthers(s, a, t);
    } else if a.step.RunSubscribe? {
      ReachableIsGood(s.bus);
      SubscribeLeavesOthers(s.bus, a.step.p, t);
    } else {
      OtherStepsLeaveLists(s.bus, a.step, t);
    }
  }

  /** The handlers on topic `t` that are not the bridge's; a topic that is not there yet has none. */
  function OthersOn(s: Bus, t: Tid): seq<HandlerEntry> {
    if t < |s.ts| then Others(s.ts[t].entries) else []
  }

  /** What an action makes of the handlers on topic `t` in the eyes of everyone else: only the install or the removal
      of a Subscribe call that is not the bridge's changes anything. */
  function SeenByOthers(s: Sys, a: Action, t: Tid, list: seq<HandlerEntry>): seq<HandlerEntry> {
    if SparesLists(s, a) || s.bus.calls[a.step.p].Publish? then list
    else
      var c := s.bus.calls[a.step.p];
      match c.spc
      case SubInstall(u) => if u == t then list + [HandlerEntry(s.bus.nextSubID + 1, HandlerOf(c))] else list
      case UnsubFilter(u, id, _) => if u == t then Without(list, id) else list
      case _ => list
  }

  /** The same over a run. */
  function RunSeenByOthers(s: Sys, actions: seq<Action>, t: Tid): seq<HandlerEntry>
    requires Run(s, actions).Some?
  {
    if actions == [] then OthersOn(s.bus, t)
    else
      var before := actions[..|actions| - 1];
      SeenByOthers(Run(s, before).value, actions[|actions| - 1], t, RunSeenByOthers(s, before, t))
  }

  lemma {:induction false} WithoutOthers(entries: seq<HandlerEntry>, id: nat)
    ensures Others(Without(entries, id)) == Without(Others(entries), id)
  {
    if entries != [] {
      var front, last := entries[..|entries| - 1], entries[|entries| - 1];
      WithoutOthers(front, id);
      OthersAppend(Without(front, id), last);
      WithoutAppend(Others(front), last, id);
    }
  }

  lemma WithoutAppend(entries: seq<HandlerEntry>, e: HandlerEntry, id: nat)
    ensures Without(entries + [e], id) == if e.id != id then Without(entries, id) + [e] else Without(entries, id)
  {
    assert (entries + [e])[..|entries|] == entries;
  }

  /** The step of someone else's Subscribe or unsubscribe. */
  lemma OwnStepCounts(s: Sys, p: Pid, t: Tid)
    requires SubscribeReady(s.bus, p) && !BridgeCall(s.bus.calls[p]) && HandlerGiven(s.bus.calls[p])
    ensures OthersOn(Commit(s.bus, p, SubscribeMove(s.bus, p)), t)
      == SeenByOthers(s, Other(RunSubscribe(p)), t, OthersOn(s.bus, t))
  {
    var c, m := s.bus.calls[p], SubscribeMove(s.bus, p);
    SubscribeShape(s.bus, p);
    if c.spc.SubInstall? {
      OthersAppend(s.bus.ts[c.spc.t].entries, HandlerEntry(s.bus.nextSubID + 1, HandlerOf(c)));
      PutCounts(s.bus, p, t, m);
    } else if c.spc.UnsubFilter? {
      WithoutOthers(s.bus.ts[c.spc.t].entries, c.spc.id);
      PutCounts(s.bus, p, t, m);
    } else {
      QuietStepCounts(s, p, t, m);
    }
  }

  lemma PutCounts(s: Bus, p: Pid, t: Tid, m: Move)
    requires p < |s.calls| && m.change.Put? && m.change.t < |s.ts|
    ensures OthersOn(Commit(s, p, m), t) == if m.change.t == t then Others(m.change.x.entries) else OthersOn(s, t)
  {
  }

  lemma QuietStepCounts(s: Sys, p: Pid, t: Tid, m: Move)
    requires p < |s.bus.calls| && s.bus.calls[p].Subscribe? && QuietMove(s.bus, s.bus.calls[p], m)
    requires !s.bus.calls[p].spc.SubInstall? && !s.bus.calls[p].spc.UnsubFilter?
    ensures OthersOn(Commit(s.bus, p, m), t) == SeenByOthers(s, Other(RunSubscribe(p)), t, OthersOn(s.bus, t))
  {
  }

  /** A topic starts with no handlers. */
  lemma NewTopicIsEmpty(s: Bus, step: Step, t: Tid)
    requires Enabled(s, step) && t >= |s.ts|
    ensures OthersOn(Apply(s, step), t) == []
  {
    match step
    case RunPublish(p, branch) => CommitAddsEmpty(s, p, PublishMove(s, p, branch), t);
    case RunSubscribe(p) => CommitAddsEmpty(s, p, SubscribeMove(s, p), t);
    case _ => OthersAddNoTopic(s, step);
  }

  lemma CommitAddsEmpty(s: Bus, p: Pid, m: Move, t: Tid)
    requires p < |s.calls| && (m.change.Put? ==> m.change.t < |s.ts|) && t >= |s.ts|
    ensures OthersOn(Commit(s, p, m), t) == []
  {
  }

  lemma OthersAddNoTopic(s: Bus, step: Step)
    requires Enabled(s, step) && !step.RunPublish? && !step.RunSubscribe?
    ensures |Apply(s, step).ts| == |s.ts|
  {
  }

  lemma ActSeenByOthers(s: Sys, a: Action, t: Tid)
    requires Inv(s) && CanAct(s, a)
    ensures OthersOn(Act(s, a).bus, t) == SeenByOthers(s, a, t, OthersOn(s.bus, t))
  {
    if !SparesLists(s, a) {
      ReachableHasHistory(s.bus);
      assert HandlerGiven(s.bus.calls[a.step.p]);
      OwnStepCounts(s, a.step.p, t);
    } else if t < |s.bus.ts| {
      ActSparesOthers(s, a, t);
    } else if a.Other? {
      NewTopicIsEmpty(s.bus, a.step, t);
    }
  }

  /** Over any run, whatever the bridge does in it (Start, failing Starts and their rollbacks, Stop) and whatever anyone
      else does, the handlers that are not the bridge's are exactly what everyone else's own installs and removals make
      of those that were there, in order. */
  lemma {:induction false} BridgeRunsLeaveOthers(s: Sys, actions: seq<Action>, t: Tid)
    requires Inv(s) && Run(s, actions).Some?
    ensures OthersOn(Run(s, actions).value.bus, t) == RunSeenByOthers(s, actions, t)
  {
    if actions != [] {
      var before := actions[..|actions| - 1];
      BridgeRunsLeaveOthers(s, before, t);
      RunKeepsInv(s, before);
      ActSeenByOthers(Run(s, before).value, actions[|actions| - 1], t);
    }
  }

  // ---------------------------------------------------------------- rows

  /** The bridge's calls as they were when it was found running: none is added and none moves while it runs. */
  ghost predicate SameBridgeCalls(calls0: seq<Proc>, calls: seq<Proc>) {
    && |calls0| <= |calls|
    && (forall p :: 0 <= p < |calls0| && BridgeCall(calls0[p]) ==> calls[p] == calls0[p])
    && (forall p :: 0 <= p < |calls| && BridgeCall(calls[p]) ==> p < |calls0| && BridgeCall(calls0[p]))
  }

  lemma RunningCallStays(s: Sys, step: Step, p: Pid)
    requires Inv(s) && s.phase.Running? && OtherAllowed(s.bus, step) && p < |s.bus.calls|
    ensures BridgeCall(s.bus.calls[p]) ==> Apply(s.bus, step).calls[p] == s.bus.calls[p]
    ensures BridgeCall(Apply(s.bus, step).calls[p]) ==> BridgeCall(s.bus.calls[p])
  {
    StepSuccessor(s.bus, step, p);
    if BridgeCall(s.bus.calls[p]) {
      OtherMoves(s.bus, step, p);
      assert Accounted(s.bus.calls[p], p, s.phase);
      if p in s.phase.own {
        var i :| 0 <= i < N && s.phase.own[i] == p;
        assert HeldOk(s.bus.calls, s.phase, i);
      }
    }
  }

  lemma NoNewBridgeCalls(s: Bus, step: Step, p: Pid)
    requires OtherAllowed(s, step) && |s.calls| <= p < |Apply(s, step).calls|
    ensures !BridgeCall(Apply(s, step).calls[p])
  {
    if BridgeCall(Apply(s, step).calls[p]) { OtherMoves(s, step, p); }
  }

  ghost predicate StaysPut(calls: seq<Proc>, calls': seq<Proc>, p: Pid)
    requires p < |calls|
  {
    p < |calls'| && (BridgeCall(calls[p]) || BridgeCall(calls'[p]) ==> calls'[p] == calls[p])
  }

  lemma SameCallsExtend(calls0: seq<Proc>, calls: seq<Proc>, calls': seq<Proc>)
    requires SameBridgeCalls(calls0, calls) && |calls| <= |calls'|
    requires forall p :: 0 <= p < |calls| ==> StaysPut(calls, calls', p)
    requires forall p :: |calls| <= p < |calls'| ==> !BridgeCall(calls'[p])
    ensures SameBridgeCalls(calls0, calls')
  {
    forall p | 0 <= p < |calls0| && BridgeCall(calls0[p])
      ensures calls'[p] == calls0[p]
    {
      assert StaysPut(calls, calls', p);
    }
    forall p | 0 <= p < |calls'| && BridgeCall(calls'[p])
      ensures p < |calls0| && BridgeCall(calls0[p])
    {
      assert p < |calls| ==> StaysPut(calls, calls', p);
    }
  }

  lemma RunningKeepsBridgeCalls(s: Sys, step: Step, calls0: seq<Proc>)
    requires Inv(s) && s.phase.Running? && OtherAllowed(s.bus, step) && SameBridgeCalls(calls0, s.bus.calls)
    ensures SameBridgeCalls(calls0, Apply(s.bus, step).calls)
  {
    forall p | 0 <= p < |s.bus.calls|
      ensures StaysPut(s.bus.calls, Apply(s.bus, step).calls, p)
    {
      StepSuccessor(s.bus, step, p);
      RunningCallStays(s, step, p);
    }
    forall p | |s.bus.calls| <= p < |Apply(s.bus, step).calls|
      ensures !BridgeCall(Apply(s.bus, step).calls[p])
    {
      NoNewBridgeCalls(s.bus, step, p);
    }
    CallsNeverFewer(s.bus, step);
    SameCallsExtend(calls0, s.bus.calls, Apply(s.bus, step).calls);
  }

  /** A bridge that runs and still runs later has run all the time, with the same calls. */
  lemma {:induction false} StillRunning(s0: Sys, actions: seq<Action>)
    requires Inv(s0) && s0.phase.Running? && Run(s0, actions).Some?
    ensures var s := Run(s0, actions).value;
      Inv(s) && (StopCalled(s.phase) || (s.phase == s0.phase && SameBridgeCalls(s0.bus.calls, s.bus.calls)))
  {
    if actions != [] {
      var before := actions[..|actions| - 1];
      StillRunning(s0, before);
      var s := Run(s0, before).value;
      var a := actions[|actions| - 1];
      ActKeepsInv(s, a);
      if s.phase == s0.phase && a.Other? {
        RunningKeepsBridgeCalls(s, a.step, s0.bus.calls);
      }
    }
  }

  // ---------------------------------------------------------------- what reaches the log

  lemma {:induction false} ReceivedSome(log: seq<Delivery>, id: nat, i: nat)
    requires i < |log| && log[i].id == id
    ensures Received(log, id) != []
  {
    var n := |log| - 1;
    if i < n { ReceivedSome(log[..n], id, i); }
  }

  lemma {:induction false} HandledIsReceived(log: seq<Delivery>, handler: nat, id: nat)
    requires forall i :: 0 <= i < |log| ==> (log[i].handler == handler <==> log[i].id == id)
    ensures HandledBy(log, handler) == Received(log, id)
  {
    if log != [] {
      HandledIsReceived(log[..|log| - 1], handler, id);
    }
  }

  lemma {:induction false} HandledByNone(log: seq<Delivery>, handler: nat)
    requires forall i :: 0 <= i < |log| ==> log[i].handler != handler
    ensures HandledBy(log, handler) == []
  {
    if log != [] {
      HandledByNone(log[..|log| - 1], handler);
    }
  }

  /** The handler of binding `k` is never called on another topic. */
  lemma RowsOnlyFromOwnTopic(s: Sys, k: nat, t: Tid)
    requires Attainable(s) && k < N && t < |s.bus.ts| && s.bus.ts[t].name != TopicName(k)
    ensures Rows(k, s.bus.ts[t]) == []
  {
    AttainableIsSound(s);
    ReachableIsGood(s.bus);
    ReachableHasHistory(s.bus);
    forall i | 0 <= i < |s.bus.ts[t].delivered|
      ensures s.bus.ts[t].delivered[i].handler != k
    {
      var p := CallOfDelivery(s.bus, t, i);
      assert Accounted(s.bus.calls[p], p, s.phase) && TargetOk(s.bus.calls[p], s.bus.ts);
    }
    HandledByNone(s.bus.ts[t].delivered, k);
  }

  lemma CallOfDelivery(s: Bus, t: Tid, i: nat) returns (p: Pid)
    requires Good(s) && History(s) && t < |s.ts| && i < |s.ts[t].delivered|
    ensures p < |s.calls| && OriginOf(s.calls[p], t, HandlerEntry(s.ts[t].delivered[i].id, s.ts[t].delivered[i].handler))
  {
    var d := s.ts[t].delivered[i];
    DeliveryHasOrigin(s, t, i);
    p :| 0 <= p < |s.calls| && OriginOf(s.calls[p], t, HandlerEntry(d.id, d.handler));
  }

  /** The bridge was running before anything was published on the topic of binding `k`. */
  ghost predicate StartedFirst(s0: Sys, k: nat)
    requires k < N
  {
    && Attainable(s0) && s0.phase.Running?
    && forall t :: 0 <= t < |s0.bus.ts| && s0.bus.ts[t].name == TopicName(k) ==> s0.bus.ts[t].enqueued == []
  }

  /** A registration that precedes the first dispatch starts at dispatch 0; one that ended before it, got nothing. */
  predicate FromStart(c: Proc) {
    c.Subscribe? &&
    match c.spc
    case Installed(_, _, from) => from == 0
    case Removed(_, _, _, upto) => upto == 0
    case _ => true
  }

  lemma RegisteredBeforeFirst(s0: Sys, k: nat, p: Pid)
    requires k < N && StartedFirst(s0, k) && p < |s0.bus.calls|
    requires BridgeCall(s0.bus.calls[p]) && s0.bus.calls[p].handler == Some(k)
    ensures FromStart(s0.bus.calls[p])
  {
    AttainableIsSound(s0);
    ReachableIsGood(s0.bus);
    var c := s0.bus.calls[p];
    assert Accounted(c, p, s0.phase);
    if c.spc.Installed? || c.spc.Removed? {
      NothingDispatchedYet(s0.bus, p, c.spc.t);
    }
  }

  lemma NothingDispatchedYet(s: Bus, p: Pid, t: Tid)
    requires Good(s) && p < |s.calls| && s.calls[p].Subscribe? && Target(s.calls[p]) == Some(t)
    requires forall u :: 0 <= u < |s.ts| && s.ts[u].name == s.calls[p].topic ==> s.ts[u].enqueued == []
    ensures FromStart(s.calls[p])
  {
    assert TargetOk(s.calls[p], s.ts) && Registered(s.calls[p], s.ts) && TopicOk(s.calls, s.nextSubID, s.ts[t]);
    NoSnapshotYet(s.ts[t]);
  }

  lemma NoSnapshotYet(x: TopicState)
    requires TopicLog(x) && x.enqueued == []
    ensures x.snaps == []
  {
    assert x.dispatched == [];
  }

  /** On its topic, the calls of binding `k`'s handler are those of the registration that the bridge holds. */
  lemma OneRegistrationServes(s: Bus, k: nat, own: Pid, t: Tid, i: nat)
    requires Reachable(s) && own < |s.calls| && s.calls[own].Subscribe?
    requires s.calls[own].handler == Some(k) && s.calls[own].spc.Installed?
    requires forall p :: 0 <= p < |s.calls| && s.calls[p].Subscribe? && s.calls[p].handler == Some(k) && p != own ==>
      Gone(s.calls[p]) && FromStart(s.calls[p])
    requires t < |s.ts| && i < |s.ts[t].delivered|
    ensures s.ts[t].delivered[i].handler == k <==> s.ts[t].delivered[i].id == s.calls[own].spc.id
  {
    ReachableIsGood(s);
    ReachableHasHistory(s);
    var d := s.ts[t].delivered[i];
    var p := CallOfDelivery(s, t, i);
    if d.id == s.calls[own].spc.id {
      SameIdSameCall(s, p, own);
    }
    if d.handler == k && p != own {
      assert s.calls[p].spc.Removed?;
      HandlerReceivesRun(s, p, t, d.id, s.calls[p].spc.from, s.calls[p].spc.upto);
      ReceivedSome(s.ts[t].delivered, d.id, i);
    }
  }

  /** If the bridge was running before the first publish on a bound topic and still runs, the events its handler was
      given are a prefix of those enqueued there; once Close has returned they are all of them, in order. */
  lemma HandledAreTheEnqueued(s0: Sys, actions: seq<Action>, k: nat, t: Tid)
    requires k < N && StartedFirst(s0, k) && Run(s0, actions).Some?
    requires var s := Run(s0, actions).value;
      s.phase.Running? && t < |s.bus.ts| && s.bus.ts[t].name == TopicName(k)
    ensures var s := Run(s0, actions).value; HandledInOrder(s.bus, k, t)
  {
    var s := Run(s0, actions).value;
    AttainableIsSound(s0);
    StillRunning(s0, actions);
    ServedByOne(s0, s, k);
    ServedAll(s.bus, k, s.phase.own[k], t);
  }

  predicate HandledInOrder(s: Bus, k: nat, t: Tid)
    requires t < |s.ts|
  {
    && HandledBy(s.ts[t].delivered, k) <= s.ts[t].enqueued
    && (s.closer == CloseReturned ==> HandledBy(s.ts[t].delivered, k) == s.ts[t].enqueued)
  }

  /** Among the calls for binding `k`, the one the bridge holds is installed from dispatch 0; the others got nothing. */
  ghost predicate ServesAlone(calls: seq<Proc>, k: nat, own: Pid) {
    && own < |calls| && calls[own].Subscribe? && calls[own].handler == Some(k)
    && calls[own].spc.Installed? && FromStart(calls[own])
    && forall p :: 0 <= p < |calls| && calls[p].Subscribe? && calls[p].handler == Some(k) && p != own ==>
         Gone(calls[p]) && FromStart(calls[p])
  }

  lemma ServedByOne(s0: Sys, s: Sys, k: nat)
    requires k < N && StartedFirst(s0, k) && Inv(s) && s.phase.Running? && SameBridgeCalls(s0.bus.calls, s.bus.calls)
    ensures ServesAlone(s.bus.calls, k, s.phase.own[k]) && s.bus.calls[s.phase.own[k]].topic == TopicName(k)
  {
    var own := s.phase.own[k];
    assert HeldOk(s.bus.calls, s.phase, k);
    RegisteredBeforeFirst(s0, k, own);
    forall p | 0 <= p < |s.bus.calls| && s.bus.calls[p].Subscribe? && s.bus.calls[p].handler == Some(k) && p != own
      ensures Gone(s.bus.calls[p]) && FromStart(s.bus.calls[p])
    {
      assert BridgeCall(s.bus.calls[p]) && Accounted(s.bus.calls[p], p, s.phase);
      RegisteredBeforeFirst(s0, k, p);
      if p in s.phase.own { HeldForOne(s, k, p); }
    }
  }

  lemma HeldForOne(s: Sys, k: nat, p: Pid)
    requires Inv(s) && s.phase.Running? && k < N && p in s.phase.own && p < |s.bus.calls|
    requires s.bus.calls[p].Subscribe? && s.bus.calls[p].handler == Some(k)
    ensures p == s.phase.own[k]
  {
    var i :| 0 <= i < N && s.phase.own[i] == p;
    assert HeldOk(s.bus.calls, s.phase, i);
  }

  lemma ServedAll(s: Bus, k: nat, own: Pid, t: Tid)
    requires Reachable(s) && k < N && ServesAlone(s.calls, k, own) && s.calls[own].topic == TopicName(k)
    requires t < |s.ts| && s.ts[t].name == TopicName(k)
    ensures HandledInOrder(s, k, t)
  {
    ReachableIsGood(s);
    assert TargetOk(s.calls[own], s.ts);
    var id := s.calls[own].spc.id;
    forall i | 0 <= i < |s.ts[t].delivered|
      ensures s.ts[t].delivered[i].handler == k <==> s.ts[t].delivered[i].id == id
    {
      OneRegistrationServes(s, k, own, t, i);
    }
    HandledIsReceived(s.ts[t].delivered, k, id);
    HandlerReceivesRun(s, own, t, id, 0, |s.ts[t].snaps|);
    if s.closer == CloseReturned { CloseReturnedMeansDrained(s); }
  }

  // ---------------------------------------------------------------- after Close

  predicate SameLogs(ts: seq<TopicState>, ts': seq<TopicState>) {
    && |ts'| == |ts|
    && forall t :: 0 <= t < |ts| ==>
         ts'[t].name == ts[t].name && ts'[t].enqueued == ts[t].enqueued && ts'[t].delivered == ts[t].delivered
  }

  /** After Close has returned no event enters a queue and no handler runs. */
  lemma NothingAfterClose(s: Bus, step: Step)
    requires Reachable(s) && s.closer == CloseReturned && Enabled(s, step)
    ensures SameLogs(s.ts, Apply(s, step).ts) && Apply(s, step).closer == CloseReturned
  {
    CloseReturnedMeansDrained(s);
    ClosedByThen(s);
    match step
    case RunPublish(p, branch) => LatePublish(s, p, branch);
    case RunSubscribe(p) => LateSubscribe(s, p);
    case RunWorker(_, _) =>
    case RunClose(_) =>
    case _ => LateCall(s, step);
  }

  lemma ClosedByThen(s: Bus)
    requires Reachable(s) && s.closer == CloseReturned
    ensures s.closed
  {
    ReachableIsGood(s);
  }

  lemma LateCall(s: Bus, step: Step)
    requires Enabled(s, step) && s.closer == CloseReturned
    requires step.StartPublish? || step.StartSubscribe? || step.StartUnsubscribe? || step.StartClose?
    requires forall t :: 0 <= t < |s.ts| ==> s.ts[t].worker == Exited
    ensures Apply(s, step).ts == s.ts && Apply(s, step).closer == CloseReturned
  {
  }

  lemma LatePublish(s: Bus, p: Pid, branch: Branch)
    requires PublishReady(s, p, branch) && s.closed && !InFlight(s.calls[p])
    ensures SameLogs(s.ts, Commit(s, p, PublishMove(s, p, branch)).ts)
  {
  }

  lemma LateSubscribe(s: Bus, p: Pid)
    requires SubscribeReady(s, p) && s.closed
    ensures SameLogs(s.ts, Commit(s, p, SubscribeMove(s, p)).ts)
  {
  }

  lemma {:induction false} RowsStayAfterClose(s: Sys, actions: seq<Action>)
    requires Inv(s) && s.bus.closer == CloseReturned && Run(s, actions).Some?
    ensures var s' := Run(s, actions).value; Inv(s') && s'.bus.closer == CloseReturned && SameLogs(s.bus.ts, s'.bus.ts)
  {
    if actions != [] {
      var before := actions[..|actions| - 1];
      RowsStayAfterClose(s, before);
      var m, a := Run(s, before).value, actions[|actions| - 1];
      ActKeepsInv(m, a);
      ActAfterClose(m, a);
    }
  }

  lemma ActAfterClose(s: Sys, a: Action)
    requires Inv(s) && s.bus.closer == CloseReturned && CanAct(s, a)
    ensures Act(s, a).bus.closer == CloseReturned && SameLogs(s.bus.ts, Act(s, a).bus.ts)
  {
    if a.Other? { NothingAfterClose(s.bus, a.step); }
  }

  /** The bridge starts before the first publish on a bound topic, Close returns, then Stop and anything else may
      happen: the log holds one append attempt for each event enqueued on that topic, in order, and no more. */
  lemma EveryEventIsAudited(s0: Sys, before: seq<Action>, after: seq<Action>, k: nat, t: Tid)
    requires k < N && StartedFirst(s0, k) && Run(s0, before).Some?
    requires Run(s0, before).value.phase.Running? && Run(s0, before).value.bus.closer == CloseReturned
    requires Run(Run(s0, before).value, after).Some?
    requires var s := Run(Run(s0, before).value, after).value; t < |s.bus.ts| && s.bus.ts[t].name == TopicName(k)
    ensures var x := Run(Run(s0, before).value, after).value.bus.ts[t]; Rows(k, x) == Attempts(k, x.enqueued)
  {
    AttainableIsSound(s0);
    RunKeepsInv(s0, before);
    RowsStayAfterClose(Run(s0, before).value, after);
    HandledAreTheEnqueued(s0, before, k, t);
  }

  // ---------------------------------------------------------------- the table

  /** No topic and no event type is bound twice. */
  lemma BindingsAreDistinct(i: nat, j: nat)
    requires i < j < N
    ensures BINDINGS[i].topic != BINDINGS[j].topic && BINDINGS[i].eventType != BINDINGS[j].eventType
  {
  }
}
