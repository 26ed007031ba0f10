/**
 The bus as the object it is in the program: fields that its goroutines update in place.  Each method is one code
 region of core/pkg/eventbus/bus.go between two synchronisation points, for the call or worker named by its argument,
 and does exactly what the step relation says.
 */
module BusRuntime {
  import opened BusModel
  import opened BusSafety
  import opened BusDelivery
  import opened BusTheorems
  import opened Options
  import opened Sums

  /** The copy loop of the unsubscribe closure. */
  method CopyWithout(entries: seq<HandlerEntry>, id: nat) returns (filtered: seq<HandlerEntry>)
    ensures filtered == Without(entries, id)
  {
    filtered := [];
    for i := 0 to |entries|
      invariant filtered == Without(entries[..i], id)
    {
      assert entries[..i + 1][..i] == entries[..i];
      if entries[i].id != id {
        filtered := filtered + [entries[i]];
      }
    }
    assert entries[..|entries|] == entries;
  }

  // ---------------------------------------------------------------- what a reachable state guarantees

  /** A step from a reachable state leads to one, and nothing that Go would panic on happens on the way. */
  lemma StepIsFaultless(s: Bus, step: Step)
    requires Reachable(s) && Enabled(s, step)
    ensures Reachable(Apply(s, step)) && !s.fault && !Apply(s, step).fault
  {
    StepReachable(s, step);
    NoFaultEver(s);
    NoFaultEver(Apply(s, step));
  }

  /** A publisher that has looked up its topic holds the one it asked for, and its channel is open. */
  lemma ChannelIsOpen(s: Bus, p: Pid, t: Tid)
    requires Reachable(s) && p < |s.calls| && s.calls[p].Publish? && Target(s.calls[p]) == Some(t)
    ensures t < |s.ts| && s.ts[t].name == s.calls[p].topic && !s.ts[t].chClosed
  {
    ReachableIsGood(s);
    SumAtLeast(s.calls, InFlightCount, p);
    assert TargetOk(s.calls[p], s.ts) && ChannelOk(s.closer, t, s.ts[t]);
  }

  lemma RegistrationCounts(s: Bus, p: Pid)
    requires Reachable(s) && p < |s.calls| && InFlight(s.calls[p])
    ensures s.publishWG > 0
  {
    ReachableIsGood(s);
    SumAtLeast(s.calls, InFlightCount, p);
  }

  lemma OpenMeansBeforeDrain(s: Bus)
    requires Reachable(s) && !s.closed
    ensures !DrainBegun(s.closer)
  {
    ReachableIsGood(s);
  }

  lemma EntriesStandInOrder(s: Bus, t: Tid)
    requires Reachable(s) && t < |s.ts|
    ensures Ordered(s.ts[t].entries, s.nextSubID)
  {
    ReachableIsGood(s);
    assert TopicOk(s.calls, s.nextSubID, s.ts[t]);
  }

  lemma OwnEntryIsThere(s: Bus, p: Pid)
    requires Reachable(s) && p < |s.calls| && s.calls[p].Subscribe? && s.calls[p].spc.UnsubFilter?
    ensures s.calls[p].spc.t < |s.ts| && HasId(s.ts[s.calls[p].spc.t].entries, s.calls[p].spc.id)
  {
    ReachableIsGood(s);
    assert Registered(s.calls[p], s.ts);
  }

  lemma WorkerIsCounted(s: Bus, t: Tid)
    requires Reachable(s) && t < |s.ts| && !s.ts[t].worker.Exited?
    ensures s.wg > 0
  {
    ReachableIsGood(s);
    SumAtLeast(s.ts, AliveCount, t);
  }

  lemma SubscriberTopic(s: Bus, p: Pid, t: Tid)
    requires Reachable(s) && p < |s.calls| && s.calls[p].Subscribe? && Target(s.calls[p]) == Some(t)
    ensures t < |s.ts| && s.ts[t].name == s.calls[p].topic
  {
    ReachableIsGood(s);
    assert TargetOk(s.calls[p], s.ts);
  }

  class EventBus {
    const cap: nat
    var closed: bool
    var done: bool
    var mu: Holder
    var topics: map<string, Tid>
    var ts: seq<TopicState>
    var publishWG: int
    var wg: int
    var nextSubID: nat
    var calls: seq<Proc>
    var closer: ClosePC

    ghost function View(): Bus
      reads this
    {
      Bus(cap, closed, done, mu, topics, ts, publishWG, wg, nextSubID, calls, closer, false)
    }

    ghost predicate Valid()
      reads this
    {
      Reachable(View())
    }

    constructor (bufferSize: int)
      ensures View() == New(bufferSize) && Valid()
    {
      cap := if bufferSize > 0 then bufferSize else DEFAULT_TOPIC_BUFFER_SIZE;
      closed, done, mu, topics, ts := false, false, Free, map[], [];
      publishWG, wg, nextSubID, calls, closer := 0, 0, 0, [], CloseIdle;
      new;
      assert Exec(New(bufferSize), []) == Some(View());
    }

    /** Publish, lines 321-328: the registration under `b.mu`. */
    method Register(p: Pid)
      requires Valid() && Enabled(View(), RunPublish(p, Send)) && calls[p].ppc == PubCheck
      modifies this
      ensures Valid() && View() == Apply(old(View()), RunPublish(p, Send))
      ensures !old(closed) ==> publishWG == old(publishWG) + 1 && !DrainBegun(closer)
    {
      ghost var m := PublishMove(View(), p, Send);
      StepIsFaultless(View(), RunPublish(p, Send));
      if closed {
        calls := calls[p := calls[p].(ppc := PubReturned(ErrClosed))];
      } else {
        OpenMeansBeforeDrain(View());
        publishWG := publishWG + 1;
        calls := calls[p := calls[p].(ppc := PubLockTopic)];
      }
      mu := Free;
      assert View() == Commit(old(View()), p, m);
    }

    /** Topic `t` is the one of that name, and can be sent to. */
    ghost predicate Serves(t: Tid, name: string)
      reads this
    {
      t < |ts| && ts[t].name == name && !ts[t].chClosed
    }

    /** getOrCreateTopic, the missing entry: a new topic and its worker. */
    method AddTopic(name: string)
      modifies this`topics, this`ts, this`wg
      ensures topics == old(topics)[name := |old(ts)|] && ts == old(ts) + [FreshTopic(name)] && wg == old(wg) + 1
    {
      topics := topics[name := |ts|];
      ts := ts + [FreshTopic(name)];
      wg := wg + 1;
    }

    /** getOrCreateTopic, under `b.mu`. */
    method GetOrCreateTopic(p: Pid)
      requires Valid() && Enabled(View(), RunPublish(p, Send)) && calls[p].ppc == PubFind
      modifies this
      ensures Valid() && View() == Apply(old(View()), RunPublish(p, Send))
      ensures p < |calls| && (calls[p].Publish? && calls[p].ppc.PubTrySend? ==> Serves(calls[p].ppc.t, calls[p].topic))
    {
      ghost var m := PublishMove(View(), p, Send);
      StepIsFaultless(View(), RunPublish(p, Send));
      var topic := calls[p].topic;
      if topic in topics {
        calls := calls[p := calls[p].(ppc := PubTrySend(topics[topic]))];
      } else if closed {
        calls := calls[p := calls[p].(ppc := PubLeave(ErrClosed))];
      } else {
        calls := calls[p := calls[p].(ppc := PubTrySend(|ts|))];
        AddTopic(topic);
      }
      mu := Free;
      assert View() == Commit(old(View()), p, m);
      if calls[p].ppc.PubTrySend? { ChannelIsOpen(View(), p, calls[p].ppc.t); }
    }

    /** Publish, the non-blocking send; the channel is open, so it cannot panic. */
    method TrySend(p: Pid)
      requires Valid() && Enabled(View(), RunPublish(p, Send)) && calls[p].ppc.PubTrySend?
      modifies this
      ensures Valid() && View() == Apply(old(View()), RunPublish(p, Send))
      ensures var t := old(calls)[p].ppc.t; t < |old(ts)| && !old(ts)[t].chClosed
    {
      ghost var m := PublishMove(View(), p, Send);
      StepIsFaultless(View(), RunPublish(p, Send));
      ChannelIsOpen(View(), p, calls[p].ppc.t);
      var t := calls[p].ppc.t;
      var x := ts[t];
      if |x.queue| < cap {
        var env := Envelope(p, calls[p].event);
        ts := ts[t := x.(queue := x.queue + [env], enqueued := x.enqueued + [env])];
        calls := calls[p := calls[p].(ppc := PubLeave(Ok))];
      } else {
        calls := calls[p := calls[p].(ppc := PubBlocked(t))];
      }
      assert View() == Commit(old(View()), p, m);
    }

    /** Publish, the deferred `publishWG.Done` and the return. */
    method Leave(p: Pid)
      requires Valid() && Enabled(View(), RunPublish(p, Send)) && calls[p].ppc.PubLeave?
      modifies this
      ensures Valid() && View() == Apply(old(View()), RunPublish(p, Send))
      ensures publishWG == old(publishWG) - 1 >= 0
    {
      ghost var m := PublishMove(View(), p, Send);
      StepIsFaultless(View(), RunPublish(p, Send));
      RegistrationCounts(View(), p);
      publishWG := publishWG - 1;
      calls := calls[p := calls[p].(ppc := PubReturned(calls[p].ppc.r))];
      assert View() == Commit(old(View()), p, m);
    }

    /** Subscribe, from the check under `b.mu` to the topic whose lock it takes next. */
    method LocateTopic(p: Pid)
      requires Valid() && Enabled(View(), RunSubscribe(p)) && calls[p].spc == SubCheck
      modifies this
      ensures Valid() && View() == Apply(old(View()), RunSubscribe(p))
      ensures p < |calls| && (calls[p].Subscribe? && calls[p].spc.SubLockTopic? ==>
        calls[p].spc.t < |ts| && ts[calls[p].spc.t].name == calls[p].topic)
    {
      ghost var m := SubscribeMove(View(), p);
      StepIsFaultless(View(), RunSubscribe(p));
      var topic := calls[p].topic;
      if closed {
        calls := calls[p := calls[p].(spc := SubFailed(ErrClosed))];
        mu := Free;
      } else if topic in topics {
        calls := calls[p := calls[p].(spc := SubLockTopic(topics[topic]))];
      } else {
        calls := calls[p := calls[p].(spc := SubLockTopic(|ts|))];
        AddTopic(topic);
      }
      assert View() == Commit(old(View()), p, m);
      if calls[p].spc.SubLockTopic? { SubscriberTopic(View(), p, calls[p].spc.t); }
    }

    /** Subscribe, the copy-on-write append under `ts.mu`. */
    method Install(p: Pid)
      requires Valid() && Enabled(View(), RunSubscribe(p)) && calls[p].spc.SubInstall?
      modifies this
      ensures Valid() && View() == Apply(old(View()), RunSubscribe(p))
      ensures var t := old(calls)[p].spc.t;
        && t < |ts| && |ts[t].entries| > 0 && ts[t].entries[|ts[t].entries| - 1].id == nextSubID
        && forall i :: 0 <= i < |ts[t].entries| - 1 ==> ts[t].entries[i].id < nextSubID
    {
      StepIsFaultless(View(), RunSubscribe(p));
      var t := calls[p].spc.t;
      var x := ts[t];
      EntriesStandInOrder(View(), t);
      nextSubID := nextSubID + 1;
      var h := match calls[p].handler case Some(v) => v case None => 0;
      ts := ts[t := x.(lock := Open, entries := x.entries + [HandlerEntry(nextSubID, h)])];
      calls := calls[p := calls[p].(spc := Installed(t, nextSubID, |x.snaps|))];
    }

    /** The body of the unsubscribe closure, under `ts.mu`. */
    method Unsubscribe(p: Pid)
      requires Valid() && Enabled(View(), RunSubscribe(p)) && calls[p].spc.UnsubFilter?
      modifies this
      ensures Valid() && View() == Apply(old(View()), RunSubscribe(p))
      ensures var pc := old(calls)[p].spc;
        && pc.t < |ts| == |old(ts)| && HasId(old(ts)[pc.t].entries, pc.id) && !HasId(ts[pc.t].entries, pc.id)
    {
      StepIsFaultless(View(), RunSubscribe(p));
      var pc := calls[p].spc;
      var x := ts[pc.t];
      OwnEntryIsThere(View(), p);
      WithoutMembers(x.entries, pc.id, pc.id);
      var filtered := CopyWithout(x.entries, pc.id);
      ts := ts[pc.t := x.(lock := Open, entries := filtered)];
      calls := calls[p := calls[p].(spc := Removed(pc.t, pc.id, pc.from, |x.snaps|))];
    }

    /** runTopic, the receive of the range loop, or its end. */
    method Receive(t: Tid)
      requires Valid() && t < |ts| && ts[t].worker == Receiving && (ts[t].queue != [] || ts[t].chClosed)
      modifies this
      ensures Valid() && View() == Apply(old(View()), RunWorker(t, 0))
      ensures wg >= 0 && t < |ts| && ts[t].dispatched + ts[t].queue == ts[t].enqueued
    {
      StepIsFaultless(View(), RunWorker(t, 0));
      WorkerIsCounted(View(), t);
      var x := ts[t];
      if x.queue != [] {
        ts := ts[t := x.(queue := x.queue[1..], dispatched := x.dispatched + [x.queue[0]], worker := Popped(x.queue[0]))];
      } else {
        wg := wg - 1;
        ts := ts[t := x.(worker := Exited)];
      }
      DispatchedThenQueued(View(), t);
    }

    /** runTopic, the snapshot under the read lock. */
    method Snapshot(t: Tid)
      requires Valid() && t < |ts| && ts[t].worker.Snapshotting?
      modifies this
      ensures Valid() && View() == Apply(old(View()), RunWorker(t, 0))
    {
      StepIsFaultless(View(), RunWorker(t, 0));
      var x := ts[t];
      ts := ts[t := x.(lock := Open, worker := Dispatching(x.worker.env, x.entries, 0), snaps := x.snaps + [x.entries])];
    }

    /** runTopic, the loop over the snapshot: call the next handler, or go back to receiving. */
    method CallNext(t: Tid, budget: nat)
      requires Valid() && t < |ts| && ts[t].worker.Dispatching?
      modifies this
      ensures Valid() && View() == Apply(old(View()), RunWorker(t, budget))
    {
      StepIsFaultless(View(), RunWorker(t, budget));
      var x := ts[t];
      var w := x.worker;
      if w.next < |w.snap| {
        ts := ts[t := x.(worker := Calling(w.env, w.snap, w.next, budget, Idle),
                         delivered := x.delivered + [Delivery(w.snap[w.next].id, w.snap[w.next].handler, w.env)])];
      } else {
        ts := ts[t := x.(worker := Receiving)];
      }
    }

    /** Close, the critical section: set `closed` and collect the channels of all topics. */
    method MarkClosed()
      requires Valid() && closer == CloseMark
      modifies this
      ensures Valid() && View() == Apply(old(View()), RunClose(0))
      ensures closer.CloseSignal? && forall t :: t in closer.channels <==> 0 <= t < |ts|
    {
      StepIsFaultless(View(), RunClose(0));
      closed := true;
      var channels := {};
      var names := topics.Keys;
      while names != {}
        invariant names <= topics.Keys
        invariant channels == set name | name in topics && name !in names :: topics[name]
        invariant View() == old(View()).(closed := true)
        decreases |names|
      {
        var name :| name in names;
        channels := channels + {topics[name]};
        names := names - {name};
      }
      assert channels == topics.Values;
      mu := Free;
      closer := CloseSignal(channels);
      SnapshotIsComplete(View());
    }

    /** Close, one turn of the loop over the collected channels. */
    method CloseChannel(t: Tid)
      requires Valid() && Enabled(View(), RunClose(t)) && closer.CloseChannels? && closer.rest != {}
      modifies this
      ensures Valid() && View() == Apply(old(View()), RunClose(t))
      ensures t < |old(ts)| && !old(ts)[t].chClosed
    {
      StepIsFaultless(View(), RunClose(t));
      SnapshotIsComplete(View());
      ts := ts[t := ts[t].(chClosed := true)];
      closer := CloseChannels(closer.rest - {t});
    }
  }
}
