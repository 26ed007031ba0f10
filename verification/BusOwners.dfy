/** Every entry of a subscriber list belongs to a Subscribe call that has installed it and not yet removed it. */
module BusOwners {
  import opened BusModel
  import opened BusDelivery
  import opened Options

  /** The call whose registration `e` on topic `t` is. */
  predicate OwnerOf(c: Proc, t: Tid, e: HandlerEntry) {
    c.Subscribe? && c.handler == Some(e.handler) &&
    match c.spc
    case Installed(t', id, _) => t' == t && id == e.id
    case UnsubLock(t', id, _) => t' == t && id == e.id
    case UnsubFilter(t', id, _) => t' == t && id == e.id
    case _ => false
  }

  ghost predicate HasOwner(calls: seq<Proc>, t: Tid, e: HandlerEntry) {
    exists p :: 0 <= p < |calls| && OwnerOf(calls[p], t, e)
  }

  ghost predicate TopicOwned(calls: seq<Proc>, t: Tid, entries: seq<HandlerEntry>) {
    forall i :: 0 <= i < |entries| ==> HasOwner(calls, t, entries[i])
  }

  /** Past its entry checks a Subscribe call has a handler. */
  predicate HandlerGiven(c: Proc) {
    c.Subscribe? && !c.spc.SubEntry? && !c.spc.SubFailed? ==> c.handler.Some?
  }

  ghost predicate HandlersGiven(calls: seq<Proc>) {
    forall p :: 0 <= p < |calls| ==> HandlerGiven(calls[p])
  }

  ghost predicate Owners(calls: seq<Proc>, ts: seq<TopicState>) {
    && HandlersGiven(calls)
    && (forall t :: 0 <= t < |ts| ==> TopicOwned(calls, t, ts[t].entries))
  }

  /** A step that leaves the subscriber lists alone; a new topic starts with none. */
  predicate SameEntries(ts: seq<TopicState>, ts': seq<TopicState>) {
    && |ts| <= |ts'|
    && (forall t :: 0 <= t < |ts| ==> ts'[t].entries == ts[t].entries)
    && (forall t :: |ts| <= t < |ts'| ==> ts'[t].entries == [])
  }

  /** How a call may change and stay the owner of what it owns. */
  predicate KeepsOwning(c: Proc, c': Proc) {
    && (HandlerGiven(c) ==> HandlerGiven(c'))
    && (c.Subscribe? && IdOf(c) != None ==>
          c'.Subscribe? && c'.handler == c.handler && IdOf(c') == IdOf(c) && !c'.spc.Removed? && SameTopic(c.spc, c'.spc))
  }

  predicate SameTopic(pc: SubPC, pc': SubPC) {
    && (pc.Installed? ==> (pc'.UnsubLock? && pc'.t == pc.t) || pc' == pc)
    && (pc.UnsubLock? ==> pc'.UnsubFilter? && pc'.t == pc.t)
    && !pc.UnsubFilter?
  }

  lemma OwnedAfterMove(calls: seq<Proc>, t: Tid, entries: seq<HandlerEntry>, p: Pid, c: Proc)
    requires TopicOwned(calls, t, entries) && p < |calls| && KeepsOwning(calls[p], c)
    ensures TopicOwned(calls[p := c], t, entries)
  {
    var calls' := calls[p := c];
    forall i | 0 <= i < |entries|
      ensures HasOwner(calls', t, entries[i])
    {
      assert HasOwner(calls, t, entries[i]);
      var q :| 0 <= q < |calls| && OwnerOf(calls[q], t, entries[i]);
      assert OwnerOf(calls'[q], t, entries[i]);
    }
  }

  lemma CallMovedOn(calls: seq<Proc>, ts: seq<TopicState>, ts': seq<TopicState>, p: Pid, c: Proc)
    requires Owners(calls, ts) && p < |calls| && KeepsOwning(calls[p], c) && SameEntries(ts, ts')
    ensures Owners(calls[p := c], ts')
  {
    forall t | 0 <= t < |ts'|
      ensures TopicOwned(calls[p := c], t, ts'[t].entries)
    {
      if t < |ts| { OwnedAfterMove(calls, t, ts[t].entries, p, c); }
    }
  }

  lemma CallArrived(calls: seq<Proc>, ts: seq<TopicState>, ts': seq<TopicState>, c: Proc)
    requires Owners(calls, ts) && HandlerGiven(c) && SameEntries(ts, ts')
    ensures Owners(calls + [c], ts')
  {
    forall t | 0 <= t < |ts'|
      ensures TopicOwned(calls + [c], t, ts'[t].entries)
    {
      forall i | 0 <= i < |ts'[t].entries|
        ensures HasOwner(calls + [c], t, ts'[t].entries[i])
      {
        assert TopicOwned(calls, t, ts[t].entries);
        assert HasOwner(calls, t, ts[t].entries[i]);
        var q :| 0 <= q < |calls| && OwnerOf(calls[q], t, ts[t].entries[i]);
        assert OwnerOf((calls + [c])[q], t, ts'[t].entries[i]);
      }
    }
  }

  lemma OwnerInstalled(calls: seq<Proc>, ts: seq<TopicState>, p: Pid, t: Tid, id: nat, from: nat)
    requires Owners(calls, ts) && p < |calls| && t < |ts|
    requires calls[p].Subscribe? && calls[p].spc == SubInstall(t)
    ensures calls[p].handler.Some?
    ensures Owners(calls[p := calls[p].(spc := Installed(t, id, from))],
                   ts[t := InstalledTopic(ts[t], id, calls[p].handler.value)])
  {
    assert HandlerGiven(calls[p]);
    var c := calls[p].(spc := Installed(t, id, from));
    var calls' := calls[p := c];
    var ts' := ts[t := InstalledTopic(ts[t], id, c.handler.value)];
    forall u | 0 <= u < |ts'|
      ensures TopicOwned(calls', u, ts'[u].entries)
    {
      OwnedAfterMove(calls, u, ts[u].entries, p, c);
      assert OwnerOf(calls'[p], t, HandlerEntry(id, c.handler.value));
      assert HasOwner(calls', t, HandlerEntry(id, c.handler.value));
    }
  }

  /** What unsubscribing keeps was there before, under another id. */
  lemma {:induction false} WithoutKeeps(entries: seq<HandlerEntry>, id: nat, i: nat)
    requires i < |Without(entries, id)|
    ensures Without(entries, id)[i] in entries && Without(entries, id)[i].id != id
  {
    var n := |entries| - 1;
    if i < |Without(entries[..n], id)| {
      WithoutKeeps(entries[..n], id, i);
      assert Without(entries, id)[i] in entries[..n];
    }
  }

  lemma OwnerRemoved(calls: seq<Proc>, ts: seq<TopicState>, p: Pid, t: Tid, id: nat, from: nat, upto: nat)
    requires Owners(calls, ts) && p < |calls| && t < |ts|
    requires calls[p].Subscribe? && calls[p].spc == UnsubFilter(t, id, from)
    ensures Owners(calls[p := calls[p].(spc := Removed(t, id, from, upto))], ts[t := RemovedTopic(ts[t], id)])
  {
    var calls' := calls[p := calls[p].(spc := Removed(t, id, from, upto))];
    var ts' := ts[t := RemovedTopic(ts[t], id)];
    assert HandlerGiven(calls[p]);
    forall u, i | 0 <= u < |ts'| && 0 <= i < |ts'[u].entries|
      ensures HasOwner(calls', u, ts'[u].entries[i])
    {
      var e := ts'[u].entries[i];
      if u == t { WithoutKeeps(ts[t].entries, id, i); }
      assert TopicOwned(calls, u, ts[u].entries);
      assert HasOwner(calls, u, e);
      var q :| 0 <= q < |calls| && OwnerOf(calls[q], u, e);
      assert OwnerOf(calls'[q], u, e);
    }
  }

  /** A step of Subscribe keeps the handler it was given, and passes its entry checks only with one. */
  lemma HandlerStays(s: Bus, p: Pid)
    requires SubscribeReady(s, p)
    ensures var c, m := s.calls[p], SubscribeMove(s, p);
      m.call.Subscribe? && m.call.handler == c.handler && (HandlerGiven(c) ==> HandlerGiven(m.call))
  {
  }

  lemma SubscribeKeepsOwners(s: Bus, p: Pid)
    requires Owners(s.calls, s.ts) && SubscribeReady(s, p)
    ensures var s' := Commit(s, p, SubscribeMove(s, p)); Owners(s'.calls, s'.ts)
  {
    var c, m := s.calls[p], SubscribeMove(s, p);
    HandlerStays(s, p);
    SubscribeShape(s, p);
    if c.spc.SubInstall? {
      OwnerInstalled(s.calls, s.ts, p, c.spc.t, m.nextSubID, |s.ts[c.spc.t].snaps|);
    } else if c.spc.UnsubFilter? {
      OwnerRemoved(s.calls, s.ts, p, c.spc.t, c.spc.id, c.spc.from, |s.ts[c.spc.t].snaps|);
    } else {
      QuietKeepsOwners(s, p, m);
    }
  }

  lemma QuietKeepsOwners(s: Bus, p: Pid, m: Move)
    requires Owners(s.calls, s.ts) && p < |s.calls| && s.calls[p].Subscribe?
    requires QuietMove(s, s.calls[p], m) && m.call.handler == s.calls[p].handler
    requires HandlerGiven(s.calls[p]) ==> HandlerGiven(m.call)
    ensures Owners(Commit(s, p, m).calls, Commit(s, p, m).ts)
  {
    CallMovedOn(s.calls, s.ts, Commit(s, p, m).ts, p, m.call);
  }

  lemma PublishKeepsOwners(s: Bus, p: Pid, branch: Branch)
    requires Owners(s.calls, s.ts) && PublishReady(s, p, branch)
    requires PublishMove(s, p, branch).change.Put? ==> PublishMove(s, p, branch).change.t < |s.ts|
    ensures var s' := Commit(s, p, PublishMove(s, p, branch)); Owners(s'.calls, s'.ts)
  {
    var m := PublishMove(s, p, branch);
    PublishShape(s, p, branch);
    CallMovedOn(s.calls, s.ts, Commit(s, p, m).ts, p, m.call);
  }

  lemma AwaitSameEntries(s: Bus, w: Waiter, n: Nested)
    requires CanCall(s, w)
    ensures SameEntries(s.ts, Await(s, w, n).ts) && Await(s, w, n).calls == s.calls
  {
  }

  lemma WorkerSameEntries(s: Bus, t: Tid, budget: nat)
    requires WorkerReady(s, t)
    ensures WorkerTurn(s, t, budget).x.entries == s.ts[t].entries
  {
  }

  lemma UntouchedCalls(calls: seq<Proc>, ts: seq<TopicState>, ts': seq<TopicState>)
    requires Owners(calls, ts) && SameEntries(ts, ts')
    ensures Owners(calls, ts')
  {
    forall t | 0 <= t < |ts'|
      ensures TopicOwned(calls, t, ts'[t].entries)
    {
      if t < |ts| { assert TopicOwned(calls, t, ts[t].entries); }
    }
  }

  lemma ArrivalKeepsOwners(s: Bus, step: Step)
    requires Owners(s.calls, s.ts) && Enabled(s, step) && (step.StartPublish? || step.StartSubscribe?)
    ensures Owners(Apply(s, step).calls, Apply(s, step).ts)
  {
    var n := if step.StartPublish? then OnPublish(|s.calls|) else OnSubscribe(|s.calls|);
    var c := if step.StartPublish? then Publish(step.topic, step.event, step.waiter, PubEntry)
             else Subscribe(step.topic, step.handler, step.waiter, SubEntry);
    AwaitSameEntries(s, step.waiter, n);
    CallArrived(s.calls, s.ts, Await(s, step.waiter, n).ts, c);
  }

  lemma StartUnsubscribeKeepsOwners(s: Bus, p: Pid, w: Waiter)
    requires Owners(s.calls, s.ts) && Enabled(s, StartUnsubscribe(p, w))
    ensures var s' := Apply(s, StartUnsubscribe(p, w)); Owners(s'.calls, s'.ts)
  {
    var pc := s.calls[p].spc;
    AwaitSameEntries(s, w, OnUnsubscribe(p));
    CallMovedOn(s.calls, s.ts, Await(s, w, OnUnsubscribe(p)).ts, p,
                s.calls[p].(waiter := w, spc := UnsubLock(pc.t, pc.id, pc.from)));
  }

  lemma WorkerKeepsOwners(s: Bus, t: Tid, budget: nat)
    requires Owners(s.calls, s.ts) && WorkerReady(s, t)
    ensures Owners(s.calls, s.ts[t := WorkerTurn(s, t, budget).x])
  {
    WorkerSameEntries(s, t, budget);
    UntouchedCalls(s.calls, s.ts, s.ts[t := WorkerTurn(s, t, budget).x]);
  }

  lemma StepKeepsOwners(s: Bus, step: Step)
    requires Owners(s.calls, s.ts) && Enabled(s, step)
    ensures Owners(Apply(s, step).calls, Apply(s, step).ts)
  {
    match step
    case RunPublish(p, branch) => PublishKeepsOwners(s, p, branch);
    case RunSubscribe(p) => SubscribeKeepsOwners(s, p);
    case RunWorker(t, budget) => WorkerKeepsOwners(s, t, budget);
    case RunClose(t) => UntouchedCalls(s.calls, s.ts, Apply(s, step).ts);
    case StartPublish(_, _, _) => ArrivalKeepsOwners(s, step);
    case StartSubscribe(_, _, _) => ArrivalKeepsOwners(s, step);
    case StartUnsubscribe(p, w) => StartUnsubscribeKeepsOwners(s, p, w);
    case StartClose =>
  }

  lemma {:induction false} ExecIsOwned(size: int, schedule: seq<Step>)
    requires Exec(New(size), schedule).Some?
    ensures var s := Exec(New(size), schedule).value; Owners(s.calls, s.ts)
  {
    if schedule != [] {
      ExecIsOwned(size, schedule[..|schedule| - 1]);
      StepKeepsOwners(Exec(New(size), schedule[..|schedule| - 1]).value, schedule[|schedule| - 1]);
    }
  }

  /** In every reachable state each entry of a subscriber list belongs to a call that installed it and has not
      removed it. */
  lemma EntriesAreOwned(s: Bus, t: Tid, e: HandlerEntry) returns (p: Pid)
    requires Reachable(s) && t < |s.ts| && e in s.ts[t].entries
    ensures p < |s.calls| && OwnerOf(s.calls[p], t, e)
  {
    var size: int, schedule: seq<Step> :| Exec(New(size), schedule) == Some(s);
    ExecIsOwned(size, schedule);
    assert TopicOwned(s.calls, t, s.ts[t].entries);
    assert HasOwner(s.calls, t, e);
    p :| 0 <= p < |s.calls| && OwnerOf(s.calls[p], t, e);
  }
}
