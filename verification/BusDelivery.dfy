/** What the logs say in every reachable state: conservation of events, results of Publish, and who received what. */
module BusDelivery {
  import opened BusModel
  import opened BusSafety
  import opened Options

  // ---------------------------------------------------------------- vocabulary

  /** The calls of a worker's handlers for one envelope. */
  function Round(env: Envelope, snap: seq<HandlerEntry>): seq<Delivery> {
    if snap == [] then []
    else Round(env, snap[..|snap| - 1]) + [Delivery(snap[|snap| - 1].id, snap[|snap| - 1].handler, env)]
  }

  /** The calls for a sequence of envelopes, each with its own snapshot. */
  function Rounds(envs: seq<Envelope>, snaps: seq<seq<HandlerEntry>>): seq<Delivery>
    requires |envs| == |snaps|
  {
    if snaps == [] then []
    else
      var n := |snaps| - 1;
      Rounds(envs[..n], snaps[..n]) + Round(envs[n], snaps[n])
  }

  predicate HasId(entries: seq<HandlerEntry>, id: nat) {
    exists i :: 0 <= i < |entries| && entries[i].id == id
  }

  /** Registration order is the order of the ids, which never repeat. */
  ghost predicate Ordered(entries: seq<HandlerEntry>, bound: nat) {
    && (forall i, j :: 0 <= i < j < |entries| ==> entries[i].id < entries[j].id)
    && (forall i :: 0 <= i < |entries| ==> entries[i].id <= bound)
  }

  predicate Landed(c: Proc) {
    c.Publish? && (c.ppc == PubLeave(Ok) || c.ppc == PubReturned(Ok))
  }

  predicate InLog(x: TopicState, p: Pid) {
    exists i :: 0 <= i < |x.enqueued| && x.enqueued[i].call == p
  }

  function IdOf(c: Proc): Option<nat> {
    match c
    case Publish(_, _, _, _) => None
    case Subscribe(_, _, _, pc) =>
      (match pc
       case Installed(_, id, _) => Some(id)
       case UnsubLock(_, id, _) => Some(id)
       case UnsubFilter(_, id, _) => Some(id)
       case Removed(_, id, _, _) => Some(id)
       case _ => None)
  }

  // ---------------------------------------------------------------- the invariant

  /** Nothing is lost or invented between the queue and the handlers of a topic. */
  ghost predicate TopicLog(x: TopicState) {
    && x.dispatched + x.queue == x.enqueued
    && match x.worker
       case Receiving => |x.snaps| == |x.dispatched| && x.delivered == Rounds(x.dispatched, x.snaps)
       case Exited => |x.snaps| == |x.dispatched| && x.delivered == Rounds(x.dispatched, x.snaps)
       case Popped(env) => Waiting(x, env)
       case Snapshotting(env) => Waiting(x, env)
       case Dispatching(env, snap, next) => next <= |snap| && InRound(x, env, snap, next)
       case Calling(env, snap, next, _, _) => next < |snap| && InRound(x, env, snap, next + 1)
  }

  ghost predicate Waiting(x: TopicState, env: Envelope) {
    && |x.dispatched| == |x.snaps| + 1
    && env == x.dispatched[|x.snaps|]
    && x.delivered == Rounds(x.dispatched[..|x.snaps|], x.snaps)
  }

  ghost predicate InRound(x: TopicState, env: Envelope, snap: seq<HandlerEntry>, n: nat) {
    var k := |x.snaps| - 1;
    && |x.dispatched| == |x.snaps| > 0
    && env == x.dispatched[k] && snap == x.snaps[k] && n <= |snap|
    && x.delivered == Rounds(x.dispatched[..k], x.snaps[..k]) + Round(env, snap[..n])
  }

  ghost predicate Registry(x: TopicState, bound: nat) {
    && Ordered(x.entries, bound)
    && (forall i :: 0 <= i < |x.snaps| ==> Ordered(x.snaps[i], bound))
  }

  /** A registration is in exactly the snapshots taken between its install and its removal. */
  ghost predicate Registered(c: Proc, ts: seq<TopicState>) {
    c.Subscribe? ==>
      match c.spc
      case Installed(t, id, from) => t < |ts| && Present(ts[t], id, from)
      case UnsubLock(t, id, from) => t < |ts| && Present(ts[t], id, from)
      case UnsubFilter(t, id, from) => t < |ts| && Present(ts[t], id, from)
      case Removed(t, id, from, upto) => t < |ts| && Absent(ts[t], id, from, upto)
      case _ => true
  }

  ghost predicate Present(x: TopicState, id: nat, from: nat) {
    && from <= |x.snaps|
    && HasId(x.entries, id)
    && (forall i :: 0 <= i < |x.snaps| ==> (HasId(x.snaps[i], id) <==> from <= i))
  }

  ghost predicate Absent(x: TopicState, id: nat, from: nat, upto: nat) {
    && from <= upto <= |x.snaps|
    && !HasId(x.entries, id)
    && (forall i :: 0 <= i < |x.snaps| ==> (HasId(x.snaps[i], id) <==> from <= i < upto))
  }

  ghost predicate Ids(calls: seq<Proc>, bound: nat) {
    && (forall p :: 0 <= p < |calls| && IdOf(calls[p]).Some? ==> IdOf(calls[p]).value <= bound)
    && (forall p, q :: 0 <= p < q < |calls| && IdOf(calls[p]).Some? ==> IdOf(calls[p]) != IdOf(calls[q]))
  }

  /** Every logged envelope is the one event of the call that enqueued it, and no call is logged twice. */
  ghost predicate Senders(calls: seq<Proc>, x: TopicState) {
    && (forall i :: 0 <= i < |x.enqueued| ==> SenderOk(calls, x.name, x.enqueued[i]))
    && (forall i, j :: 0 <= i < j < |x.enqueued| ==> x.enqueued[i].call != x.enqueued[j].call)
  }

  ghost predicate SenderOk(calls: seq<Proc>, name: string, env: Envelope) {
    env.call < |calls| && Landed(calls[env.call]) && calls[env.call].topic == name && calls[env.call].event == env.event
  }

  ghost predicate LandedLogged(calls: seq<Proc>, topics: map<string, Tid>, ts: seq<TopicState>) {
    forall p :: 0 <= p < |calls| && Landed(calls[p]) ==> LoggedOnce(calls[p].topic, p, topics, ts)
  }

  ghost predicate LoggedOnce(topic: string, p: Pid, topics: map<string, Tid>, ts: seq<TopicState>) {
    topic in topics && topics[topic] < |ts| && InLog(ts[topics[topic]], p)
  }

  ghost predicate TopicOk(calls: seq<Proc>, bound: nat, x: TopicState) {
    TopicLog(x) && Registry(x, bound) && Senders(calls, x)
  }

  ghost predicate Logs(calls: seq<Proc>, topics: map<string, Tid>, ts: seq<TopicState>, bound: nat) {
    && (forall t :: 0 <= t < |ts| ==> TopicOk(calls, bound, ts[t]))
    && (forall p :: 0 <= p < |calls| ==> Registered(calls[p], ts))
    && Ids(calls, bound)
    && LandedLogged(calls, topics, ts)
  }

  ghost predicate Logged(s: Bus) {
    Logs(s.calls, s.topics, s.ts, s.nextSubID)
  }

  // ---------------------------------------------------------------- steps of workers

  lemma ReceiveKeepsTopicLog(x: TopicState)
    requires TopicLog(x) && x.worker == Receiving && x.queue != []
    ensures TopicLog(x.(queue := x.queue[1..], dispatched := x.dispatched + [x.queue[0]], worker := Popped(x.queue[0])))
  {
    assert (x.dispatched + [x.queue[0]])[..|x.snaps|] == x.dispatched;
    assert x.dispatched + [x.queue[0]] + x.queue[1..] == x.dispatched + x.queue;
  }

  lemma SnapshotKeepsTopicLog(x: TopicState, env: Envelope)
    requires TopicLog(x) && x.worker == Snapshotting(env)
    ensures TopicLog(x.(lock := Open, worker := Dispatching(env, x.entries, 0), snaps := x.snaps + [x.entries]))
  {
    assert (x.snaps + [x.entries])[..|x.snaps|] == x.snaps;
    assert Round(env, x.entries[..0]) == [];
  }

  lemma CallKeepsTopicLog(x: TopicState, env: Envelope, snap: seq<HandlerEntry>, next: nat, budget: nat)
    requires TopicLog(x) && x.worker == Dispatching(env, snap, next) && next < |snap|
    ensures TopicLog(x.(worker := Calling(env, snap, next, budget, Idle),
                        delivered := x.delivered + [Delivery(snap[next].id, snap[next].handler, env)]))
  {
    assert snap[..next + 1][..next] == snap[..next];
  }

  lemma EndKeepsTopicLog(x: TopicState, env: Envelope, snap: seq<HandlerEntry>)
    requires TopicLog(x) && x.worker == Dispatching(env, snap, |snap|)
    ensures TopicLog(x.(worker := Receiving))
  {
    assert snap[..|snap|] == snap;
  }

  lemma TurnKeepsTopicLog(s: Bus, t: Tid, budget: nat)
    requires WorkerReady(s, t) && TopicLog(s.ts[t])
    ensures TopicLog(WorkerTurn(s, t, budget).x)
  {
    var x := s.ts[t];
    match x.worker
    case Receiving => if x.queue != [] { ReceiveKeepsTopicLog(x); }
    case Popped(env) =>
    case Snapshotting(env) => SnapshotKeepsTopicLog(x, env);
    case Dispatching(env, snap, next) =>
      if next < |snap| { CallKeepsTopicLog(x, env, snap, next, budget); } else { EndKeepsTopicLog(x, env, snap); }
    case Calling(env, snap, next, left, nested) =>
    case Exited =>
  }

  /** What a worker's turn leaves to the registrations of its topic. */
  lemma TurnKeepsRegistered(s: Bus, t: Tid, budget: nat, c: Proc)
    requires WorkerReady(s, t) && Registered(c, s.ts)
    ensures Registered(c, s.ts[t := WorkerTurn(s, t, budget).x])
  {
  }

  lemma WorkerKeepsLogged(s: Bus, t: Tid, budget: nat)
    requires Logged(s) && WorkerReady(s, t)
    ensures Logged(Apply(s, RunWorker(t, budget)))
  {
    var x := WorkerTurn(s, t, budget).x;
    assert TopicOk(s.calls, s.nextSubID, s.ts[t]);
    TurnKeepsTopicLog(s, t, budget);
    TurnKeepsRegistry(s, t, budget);
    forall p | 0 <= p < |s.calls|
      ensures Registered(s.calls[p], s.ts[t := x])
    {
      TurnKeepsRegistered(s, t, budget, s.calls[p]);
    }
    TopicReplaced(s.calls, s.topics, s.ts, s.nextSubID, t, x);
  }

  lemma TurnKeepsRegistry(s: Bus, t: Tid, budget: nat)
    requires WorkerReady(s, t) && Registry(s.ts[t], s.nextSubID)
    ensures var x := WorkerTurn(s, t, budget).x;
      Registry(x, s.nextSubID) && x.name == s.ts[t].name && x.enqueued == s.ts[t].enqueued
  {
  }

  /** A topic is replaced by one with the same name and at least the same log. */
  lemma TopicReplaced(calls: seq<Proc>, topics: map<string, Tid>, ts: seq<TopicState>, bound: nat, t: Tid, x: TopicState)
    requires Logs(calls, topics, ts, bound) && t < |ts|
    requires x.name == ts[t].name && x.enqueued == ts[t].enqueued && TopicLog(x) && Registry(x, bound)
    requires forall p :: 0 <= p < |calls| ==> Registered(calls[p], ts[t := x])
    ensures Logs(calls, topics, ts[t := x], bound)
  {
    assert TopicOk(calls, bound, ts[t]);
    LandedStays(calls, topics, ts, t, x);
  }

  lemma LandedStays(calls: seq<Proc>, topics: map<string, Tid>, ts: seq<TopicState>, t: Tid, x: TopicState)
    requires LandedLogged(calls, topics, ts) && t < |ts|
    requires forall p :: InLog(ts[t], p) ==> InLog(x, p)
    ensures LandedLogged(calls, topics, ts[t := x])
  {
    var ts' := ts[t := x];
    forall p | 0 <= p < |calls| && Landed(calls[p])
      ensures LoggedOnce(calls[p].topic, p, topics, ts')
    {
      assert LoggedOnce(calls[p].topic, p, topics, ts);
    }
  }

  // ---------------------------------------------------------------- steps of calls

  /** A call moves on without landing, registering or unregistering. */
  lemma CallMoved(calls: seq<Proc>, topics: map<string, Tid>, ts: seq<TopicState>, bound: nat, p: Pid, c: Proc)
    requires Logs(calls, topics, ts, bound) && p < |calls|
    requires c.Publish? == calls[p].Publish? && c.topic == calls[p].topic && (c.Publish? ==> c.event == calls[p].event)
    requires Landed(c) == Landed(calls[p]) && IdOf(c) == IdOf(calls[p]) && Registered(c, ts)
    ensures Logs(calls[p := c], topics, ts, bound)
  {
    var calls' := calls[p := c];
    forall t | 0 <= t < |ts|
      ensures TopicOk(calls', bound, ts[t])
    {
      assert TopicOk(calls, bound, ts[t]);
      SendersKept(calls, ts[t], p, c);
    }
    forall q | 0 <= q < |calls'| && Landed(calls'[q])
      ensures LoggedOnce(calls'[q].topic, q, topics, ts)
    {
      assert LoggedOnce(calls[q].topic, q, topics, ts);
    }
  }

  lemma SendersKept(calls: seq<Proc>, x: TopicState, p: Pid, c: Proc)
    requires Senders(calls, x) && p < |calls|
    requires Landed(calls[p]) ==> Landed(c) && c.topic == calls[p].topic && c.event == calls[p].event
    ensures Senders(calls[p := c], x)
  {
    forall i | 0 <= i < |x.enqueued|
      ensures SenderOk(calls[p := c], x.name, x.enqueued[i])
    {
      assert SenderOk(calls, x.name, x.enqueued[i]);
    }
  }

  lemma TopicCreated(calls: seq<Proc>, topics: map<string, Tid>, ts: seq<TopicState>, bound: nat, name: string)
    requires Logs(calls, topics, ts, bound) && name !in topics
    ensures Logs(calls, topics[name := |ts|], ts + [FreshTopic(name)], bound)
  {
    var topics', ts' := topics[name := |ts|], ts + [FreshTopic(name)];
    forall q | 0 <= q < |calls| && Landed(calls[q])
      ensures LoggedOnce(calls[q].topic, q, topics', ts')
    {
      assert LoggedOnce(calls[q].topic, q, topics, ts);
    }
    forall q | 0 <= q < |calls|
      ensures Registered(calls[q], ts')
    {
      assert Registered(calls[q], ts);
    }
  }

  /** The publisher's envelope enters the queue and the publisher has landed. */
  lemma EventSent(calls: seq<Proc>, topics: map<string, Tid>, ts: seq<TopicState>, bound: nat, p: Pid, t: Tid)
    requires Logs(calls, topics, ts, bound) && TopicMap(topics, ts) && p < |calls| && t < |ts|
    requires calls[p].Publish? && !Landed(calls[p]) && calls[p].topic == ts[t].name
    ensures Logs(calls[p := calls[p].(ppc := PubLeave(Ok))], topics,
                 ts[t := Sent(ts[t], Envelope(p, calls[p].event))], bound)
  {
    var c := calls[p].(ppc := PubLeave(Ok));
    var env := Envelope(p, calls[p].event);
    var x, y := ts[t], Sent(ts[t], env);
    var calls', ts' := calls[p := c], ts[t := y];
    forall u | 0 <= u < |ts'|
      ensures TopicOk(calls', bound, ts'[u])
    {
      assert TopicOk(calls, bound, ts[u]);
      SendersKept(calls, ts[u], p, c);
      if u == t {
        SentTopicOk(calls, calls', bound, x, p);
      }
    }
    SentRegistered(calls, calls', ts, p, t, env);
    SentLanded(calls, topics, ts, p, t);
  }

  lemma SentRegistered(calls: seq<Proc>, calls': seq<Proc>, ts: seq<TopicState>, p: Pid, t: Tid, env: Envelope)
    requires forall q :: 0 <= q < |calls| ==> Registered(calls[q], ts)
    requires p < |calls| == |calls'| && t < |ts| && calls' == calls[p := calls'[p]] && calls'[p].Publish?
    ensures forall q :: 0 <= q < |calls'| ==> Registered(calls'[q], ts[t := Sent(ts[t], env)])
  {
  }

  lemma SentTopicOk(calls: seq<Proc>, calls': seq<Proc>, bound: nat, x: TopicState, p: Pid)
    requires TopicOk(calls, bound, x) && Senders(calls', x) && p < |calls| == |calls'|
    requires calls[p].Publish? && !Landed(calls[p]) && calls[p].topic == x.name
    requires calls'[p] == calls[p].(ppc := PubLeave(Ok))
    ensures TopicOk(calls', bound, Sent(x, Envelope(p, calls[p].event)))
  {
    var env := Envelope(p, calls[p].event);
    var y := Sent(x, env);
    assert y.dispatched + y.queue == (x.dispatched + x.queue) + [env];
    forall i | 0 <= i < |x.enqueued|
      ensures x.enqueued[i].call != p && SenderOk(calls', y.name, y.enqueued[i])
    {
      assert SenderOk(calls, x.name, x.enqueued[i]) && SenderOk(calls', x.name, x.enqueued[i]);
    }
  }

  lemma SentLanded(calls: seq<Proc>, topics: map<string, Tid>, ts: seq<TopicState>, p: Pid, t: Tid)
    requires LandedLogged(calls, topics, ts) && TopicMap(topics, ts) && p < |calls| && t < |ts|
    requires calls[p].Publish? && calls[p].topic == ts[t].name
    ensures LandedLogged(calls[p := calls[p].(ppc := PubLeave(Ok))], topics,
                         ts[t := Sent(ts[t], Envelope(p, calls[p].event))])
  {
    var c := calls[p].(ppc := PubLeave(Ok));
    var y := Sent(ts[t], Envelope(p, calls[p].event));
    var calls', ts' := calls[p := c], ts[t := y];
    assert y.enqueued[|ts[t].enqueued|].call == p;
    forall q | 0 <= q < |calls'| && Landed(calls'[q])
      ensures LoggedOnce(calls'[q].topic, q, topics, ts')
    {
      if q != p {
        assert LoggedOnce(calls[q].topic, q, topics, ts);
        var i :| 0 <= i < |ts[topics[calls[q].topic]].enqueued| && ts[topics[calls[q].topic]].enqueued[i].call == q;
        assert ts'[topics[calls[q].topic]].enqueued[i].call == q;
      }
    }
  }

  function InstalledTopic(x: TopicState, id: nat, h: nat): TopicState {
    x.(lock := Open, entries := x.entries + [HandlerEntry(id, h)])
  }

  /** A new registration takes an id above every id used before. */
  lemma HandlerInstalled(calls: seq<Proc>, topics: map<string, Tid>, ts: seq<TopicState>, bound: nat, p: Pid, t: Tid, h: nat)
    requires Logs(calls, topics, ts, bound) && p < |calls| && t < |ts|
    requires calls[p].Subscribe? && IdOf(calls[p]) == None
    ensures Logs(calls[p := calls[p].(spc := Installed(t, bound + 1, |ts[t].snaps|))], topics,
                 ts[t := InstalledTopic(ts[t], bound + 1, h)], bound + 1)
  {
    var id := bound + 1;
    var c := calls[p].(spc := Installed(t, id, |ts[t].snaps|));
    var y := InstalledTopic(ts[t], id, h);
    var calls', ts' := calls[p := c], ts[t := y];
    forall u | 0 <= u < |ts'|
      ensures TopicOk(calls', id, ts'[u])
    {
      assert TopicOk(calls, bound, ts[u]);
      SendersKept(calls, ts[u], p, c);
      InstallKeepsRegistry(ts[u], bound, h);
    }
    assert TopicOk(calls, bound, ts[t]);
    InstallRegisters(ts[t], bound, h);
    forall q | 0 <= q < |calls'|
      ensures Registered(calls'[q], ts')
    {
      if q != p {
        assert Registered(calls[q], ts);
        InstallKeepsRegistered(calls[q], ts, bound, t, h);
      }
    }
    LandedStays(calls, topics, ts, t, y);
    assert LandedLogged(calls', topics, ts');
  }

  lemma InstallKeepsRegistry(x: TopicState, bound: nat, h: nat)
    requires Registry(x, bound)
    ensures Registry(x, bound + 1) && Registry(InstalledTopic(x, bound + 1, h), bound + 1)
  {
    assert forall i :: 0 <= i < |x.snaps| ==> Ordered(x.snaps[i], bound);
  }

  lemma InstallRegisters(x: TopicState, bound: nat, h: nat)
    requires Registry(x, bound)
    ensures Present(InstalledTopic(x, bound + 1, h), bound + 1, |x.snaps|)
  {
    var y := InstalledTopic(x, bound + 1, h);
    assert y.entries[|x.entries|].id == bound + 1;
    assert forall i :: 0 <= i < |x.snaps| ==> Ordered(x.snaps[i], bound);
  }

  lemma InstallKeepsRegistered(c: Proc, ts: seq<TopicState>, bound: nat, t: Tid, h: nat)
    requires Registered(c, ts) && t < |ts| && (IdOf(c).Some? ==> IdOf(c).value <= bound)
    ensures Registered(c, ts[t := InstalledTopic(ts[t], bound + 1, h)])
  {
    if IdOf(c).Some? {
      HasIdAppend(ts[t].entries, HandlerEntry(bound + 1, h), IdOf(c).value);
    }
  }

  lemma HasIdAppend(entries: seq<HandlerEntry>, e: HandlerEntry, id: nat)
    ensures HasId(entries + [e], id) <==> HasId(entries, id) || e.id == id
  {
    var all := entries + [e];
    if HasId(entries, id) {
      var i :| 0 <= i < |entries| && entries[i].id == id;
      assert all[i].id == id;
    }
    assert all[|entries|] == e;
    if HasId(all, id) {
      var i :| 0 <= i < |all| && all[i].id == id;
      if i < |entries| { assert entries[i].id == id; }
    }
  }

  function RemovedTopic(x: TopicState, id: nat): TopicState {
    x.(lock := Open, entries := Without(x.entries, id))
  }

  /** Unsubscribing takes away one registration, keeps the others and their order. */
  lemma {:induction false} WithoutMembers(entries: seq<HandlerEntry>, id: nat, other: nat)
    ensures HasId(Without(entries, id), other) <==> HasId(entries, other) && other != id
  {
    if entries != [] {
      var n := |entries| - 1;
      WithoutMembers(entries[..n], id, other);
      assert entries == entries[..n] + [entries[n]];
      HasIdAppend(entries[..n], entries[n], other);
      HasIdAppend(Without(entries[..n], id), entries[n], other);
    }
  }

  lemma {:induction false} WithoutOrdered(entries: seq<HandlerEntry>, id: nat, bound: nat)
    requires Ordered(entries, bound)
    ensures Ordered(Without(entries, id), bound)
  {
    if entries != [] {
      var n := |entries| - 1;
      WithoutOrdered(entries[..n], id, bound);
      var front := Without(entries[..n], id);
      forall i | 0 <= i < |front|
        ensures front[i].id < entries[n].id
      {
        WithoutMembers(entries[..n], id, front[i].id);
        assert HasId(front, front[i].id);
      }
    }
  }

  lemma RemovedRegistered(c: Proc, ts: seq<TopicState>, t: Tid, id: nat, from: nat)
    requires Registered(c, ts) && t < |ts|
    ensures var ts' := ts[t := RemovedTopic(ts[t], id)];
      && (IdOf(c) != Some(id) ==> Registered(c, ts'))
      && (c.Subscribe? && c.spc == UnsubFilter(t, id, from) ==>
            Registered(c.(spc := Removed(t, id, from, |ts[t].snaps|)), ts'))
  {
    if IdOf(c).Some? { WithoutMembers(ts[t].entries, id, IdOf(c).value); }
  }

  lemma HandlerRemoved(calls: seq<Proc>, topics: map<string, Tid>, ts: seq<TopicState>, bound: nat, p: Pid, t: Tid, id: nat, from: nat)
    requires Logs(calls, topics, ts, bound) && p < |calls| && t < |ts|
    requires calls[p].Subscribe? && calls[p].spc == UnsubFilter(t, id, from)
    ensures Logs(calls[p := calls[p].(spc := Removed(t, id, from, |ts[t].snaps|))], topics,
                 ts[t := RemovedTopic(ts[t], id)], bound)
  {
    var c := calls[p].(spc := Removed(t, id, from, |ts[t].snaps|));
    var y := RemovedTopic(ts[t], id);
    var calls', ts' := calls[p := c], ts[t := y];
    assert TopicOk(calls, bound, ts[t]);
    WithoutOrdered(ts[t].entries, id, bound);
    forall q | 0 <= q < |calls|
      ensures Registered(calls'[q], ts')
    {
      assert Registered(calls[q], ts);
      assert q != p && IdOf(calls[q]).Some? ==> IdOf(calls[q]) != IdOf(calls[p]);
      RemovedRegistered(calls[q], ts, t, id, from);
    }
    forall u | 0 <= u < |ts'|
      ensures TopicOk(calls', bound, ts'[u])
    {
      assert TopicOk(calls, bound, ts[u]);
      SendersKept(calls, ts[u], p, c);
    }
    LandedStays(calls, topics, ts, t, y);
    assert LandedLogged(calls', topics, ts');
  }

  lemma LockMoved(calls: seq<Proc>, topics: map<string, Tid>, ts: seq<TopicState>, bound: nat, t: Tid, lock: TopicLock)
    requires Logs(calls, topics, ts, bound) && t < |ts|
    ensures Logs(calls, topics, ts[t := ts[t].(lock := lock)], bound)
  {
    var x := ts[t].(lock := lock);
    assert TopicOk(calls, bound, ts[t]);
    forall p | 0 <= p < |calls|
      ensures Registered(calls[p], ts[t := x])
    {
      assert Registered(calls[p], ts);
    }
    TopicReplaced(calls, topics, ts, bound, t, x);
  }

  /** A step of Publish either enqueues or leaves every log alone. */
  lemma PublishShape(s: Bus, p: Pid, branch: Branch)
    requires PublishReady(s, p, branch)
    ensures var c, m := s.calls[p], PublishMove(s, p, branch);
      && m.nextSubID == s.nextSubID && m.call.Publish? && m.call.topic == c.topic && m.call.event == c.event
      && (m.change.Create? ==> m.change.name !in s.topics)
      && (m.change.Put? ==>
            && !Landed(c) && m.call == c.(ppc := PubLeave(Ok)) && Target(c) == Some(m.change.t)
            && m.change.x == Sent(s.ts[m.change.t], Envelope(p, c.event)))
      && (!m.change.Put? ==> Landed(m.call) == Landed(c))
  {
  }

  lemma PublishKeepsLogged(s: Bus, p: Pid, branch: Branch)
    requires Logged(s) && TopicMap(s.topics, s.ts) && PublishReady(s, p, branch) && TargetOk(s.calls[p], s.ts)
    ensures Logged(Commit(s, p, PublishMove(s, p, branch)))
  {
    var m := PublishMove(s, p, branch);
    PublishShape(s, p, branch);
    QuietOrSent(s, p, m);
  }

  lemma QuietOrSent(s: Bus, p: Pid, m: Move)
    requires Logged(s) && TopicMap(s.topics, s.ts) && p < |s.calls| && s.calls[p].Publish? && TargetOk(s.calls[p], s.ts)
    requires m.nextSubID == s.nextSubID && m.call.Publish?
    requires m.call.topic == s.calls[p].topic && m.call.event == s.calls[p].event
    requires m.change.Create? ==> m.change.name !in s.topics
    requires m.change.Put? ==>
      && m.change.t < |s.ts| && !Landed(s.calls[p]) && m.call == s.calls[p].(ppc := PubLeave(Ok))
      && Target(s.calls[p]) == Some(m.change.t)
      && m.change.x == Sent(s.ts[m.change.t], Envelope(p, s.calls[p].event))
    requires !m.change.Put? ==> Landed(m.call) == Landed(s.calls[p])
    ensures Logged(Commit(s, p, m))
  {
    match m.change
    case Keep => CallMoved(s.calls, s.topics, s.ts, s.nextSubID, p, m.call);
    case Create(name) =>
      TopicCreated(s.calls, s.topics, s.ts, s.nextSubID, name);
      CallMoved(s.calls, s.topics[name := |s.ts|], s.ts + [FreshTopic(name)], s.nextSubID, p, m.call);
    case Put(t, x) => EventSent(s.calls, s.topics, s.ts, s.nextSubID, p, t);
  }

  /** A move that touches locks and topics but no registration. */
  ghost predicate QuietMove(s: Bus, c: Proc, m: Move)
    requires c.Subscribe?
  {
    && m.nextSubID == s.nextSubID && m.call.Subscribe? && m.call.topic == c.topic && IdOf(m.call) == IdOf(c)
    && (m.change.Create? ==> m.change.name !in s.topics)
    && (m.change.Put? ==> m.change.t < |s.ts| && m.change.x == s.ts[m.change.t].(lock := m.change.x.lock))
    && (IdOf(c) != None ==> c.spc.UnsubLock? && m.call.spc == UnsubFilter(c.spc.t, c.spc.id, c.spc.from))
  }

  /** A step of Subscribe installs an entry, removes one, or touches locks and topics only. */
  lemma SubscribeShape(s: Bus, p: Pid)
    requires SubscribeReady(s, p)
    ensures var c, m := s.calls[p], SubscribeMove(s, p);
      match c.spc
      case SubInstall(t) =>
        && m.nextSubID == s.nextSubID + 1 && m.call == c.(spc := Installed(t, m.nextSubID, |s.ts[t].snaps|))
        && m.change == Put(t, InstalledTopic(s.ts[t], m.nextSubID, HandlerOf(c)))
      case UnsubFilter(t, id, from) =>
        && m.nextSubID == s.nextSubID && m.call == c.(spc := Removed(t, id, from, |s.ts[t].snaps|))
        && m.change == Put(t, RemovedTopic(s.ts[t], id))
      case _ => QuietMove(s, c, m)
  {
  }

  lemma InstallKeepsLogged(s: Bus, p: Pid, t: Tid, m: Move)
    requires Logged(s) && p < |s.calls| && t < |s.ts| && s.calls[p].Subscribe? && IdOf(s.calls[p]) == None
    requires m.nextSubID == s.nextSubID + 1 && m.call == s.calls[p].(spc := Installed(t, m.nextSubID, |s.ts[t].snaps|))
    requires m.change == Put(t, InstalledTopic(s.ts[t], m.nextSubID, HandlerOf(s.calls[p])))
    ensures Logged(Commit(s, p, m))
  {
    HandlerInstalled(s.calls, s.topics, s.ts, s.nextSubID, p, t, HandlerOf(s.calls[p]));
  }

  lemma SubscribeKeepsLogged(s: Bus, p: Pid)
    requires Logged(s) && SubscribeReady(s, p)
    ensures Logged(Commit(s, p, SubscribeMove(s, p)))
  {
    var c, m := s.calls[p], SubscribeMove(s, p);
    SubscribeShape(s, p);
    match c.spc
    case SubInstall(t) => InstallKeepsLogged(s, p, t, m);
    case UnsubFilter(t, id, from) => HandlerRemoved(s.calls, s.topics, s.ts, s.nextSubID, p, t, id, from);
    case _ => QuietSubscribe(s, p, m);
  }

  lemma QuietSubscribe(s: Bus, p: Pid, m: Move)
    requires Logged(s) && p < |s.calls| && s.calls[p].Subscribe?
    requires QuietMove(s, s.calls[p], m)
    ensures Logged(Commit(s, p, m))
  {
    match m.change
    case Keep => QuietCall(s.calls, s.topics, s.ts, s.nextSubID, p, m.call);
    case Create(name) =>
      TopicCreated(s.calls, s.topics, s.ts, s.nextSubID, name);
      QuietCall(s.calls, s.topics[name := |s.ts|], s.ts + [FreshTopic(name)], s.nextSubID, p, m.call);
    case Put(t, x) =>
      LockMoved(s.calls, s.topics, s.ts, s.nextSubID, t, x.lock);
      QuietCall(s.calls, s.topics, s.ts[t := x], s.nextSubID, p, m.call);
  }

  lemma QuietCall(calls: seq<Proc>, topics: map<string, Tid>, ts: seq<TopicState>, bound: nat, p: Pid, c: Proc)
    requires Logs(calls, topics, ts, bound) && p < |calls|
    requires c.Subscribe? && calls[p].Subscribe? && c.topic == calls[p].topic && IdOf(c) == IdOf(calls[p])
    requires IdOf(calls[p]) != None ==>
      calls[p].spc.UnsubLock? && c.spc == UnsubFilter(calls[p].spc.t, calls[p].spc.id, calls[p].spc.from)
    ensures Logs(calls[p := c], topics, ts, bound)
  {
    assert Registered(calls[p], ts);
    CallMoved(calls, topics, ts, bound, p, c);
  }

  // ---------------------------------------------------------------- steps of Close, and calls arriving

  lemma TopicsTouched(calls: seq<Proc>, topics: map<string, Tid>, ts: seq<TopicState>, bound: nat, t: Tid, x: TopicState)
    requires Logs(calls, topics, ts, bound) && t < |ts|
    requires x.name == ts[t].name && x.enqueued == ts[t].enqueued && x.entries == ts[t].entries && x.snaps == ts[t].snaps
    requires TopicLog(ts[t]) ==> TopicLog(x)
    ensures Logs(calls, topics, ts[t := x], bound)
  {
    assert TopicOk(calls, bound, ts[t]);
    forall p | 0 <= p < |calls|
      ensures Registered(calls[p], ts[t := x])
    {
      assert Registered(calls[p], ts);
    }
    TopicReplaced(calls, topics, ts, bound, t, x);
  }

  lemma CloseKeepsLogged(s: Bus, t: Tid)
    requires Logged(s) && CloseReady(s, t)
    ensures Logged(CloseStep(s, t))
  {
    if s.closer.CloseChannels? && s.closer.rest != {} {
      TopicsTouched(s.calls, s.topics, s.ts, s.nextSubID, t, s.ts[t].(chClosed := true));
    }
  }

  lemma AwaitKeepsLogged(s: Bus, w: Waiter, n: Nested)
    requires Logged(s) && CanCall(s, w)
    ensures Logged(Await(s, w, n))
  {
    if w.InHandler? {
      TopicsTouched(s.calls, s.topics, s.ts, s.nextSubID, w.t, Await(s, w, n).ts[w.t]);
    }
  }

  lemma ArriveKeepsLogged(s: Bus, c: Proc)
    requires Logged(s) && !Landed(c) && IdOf(c) == None
    ensures Logged(s.(calls := s.calls + [c]))
  {
    var calls' := s.calls + [c];
    forall t | 0 <= t < |s.ts|
      ensures TopicOk(calls', s.nextSubID, s.ts[t])
    {
      assert TopicOk(s.calls, s.nextSubID, s.ts[t]);
      forall i | 0 <= i < |s.ts[t].enqueued|
        ensures SenderOk(calls', s.ts[t].name, s.ts[t].enqueued[i])
      {
        assert SenderOk(s.calls, s.ts[t].name, s.ts[t].enqueued[i]);
      }
    }
    forall q | 0 <= q < |calls'| && Landed(calls'[q])
      ensures LoggedOnce(calls'[q].topic, q, s.topics, s.ts)
    {
      assert LoggedOnce(s.calls[q].topic, q, s.topics, s.ts);
    }
  }

  lemma StartUnsubscribeKeepsLogged(s: Bus, p: Pid, w: Waiter)
    requires Logged(s) && Enabled(s, StartUnsubscribe(p, w))
    ensures Logged(Apply(s, StartUnsubscribe(p, w)))
  {
    var pc := s.calls[p].spc;
    var s1 := Await(s, w, OnUnsubscribe(p));
    AwaitKeepsLogged(s, w, OnUnsubscribe(p));
    assert Registered(s1.calls[p], s1.ts);
    CallMoved(s1.calls, s1.topics, s1.ts, s1.nextSubID, p,
              s.calls[p].(waiter := w, spc := UnsubLock(pc.t, pc.id, pc.from)));
  }

  // ---------------------------------------------------------------- every step, every run

  ghost predicate Good(s: Bus) { Safe(s) && Logged(s) }

  lemma StepKeepsGood(s: Bus, step: Step)
    requires Good(s) && Enabled(s, step)
    ensures Good(Apply(s, step))
  {
    StepKeepsSafe(s, step);
    match step
    case RunPublish(p, branch) =>
      assert TargetOk(s.calls[p], s.ts);
      PublishKeepsLogged(s, p, branch);
    case RunSubscribe(p) => SubscribeKeepsLogged(s, p);
    case RunWorker(t, budget) => WorkerKeepsLogged(s, t, budget);
    case RunClose(t) => CloseKeepsLogged(s, t);
    case StartPublish(topic, event, w) =>
      AwaitKeepsLogged(s, w, OnPublish(|s.calls|));
      ArriveKeepsLogged(Await(s, w, OnPublish(|s.calls|)), Publish(topic, event, w, PubEntry));
    case StartSubscribe(topic, handler, w) =>
      AwaitKeepsLogged(s, w, OnSubscribe(|s.calls|));
      ArriveKeepsLogged(Await(s, w, OnSubscribe(|s.calls|)), Subscribe(topic, handler, w, SubEntry));
    case StartUnsubscribe(p, w) => StartUnsubscribeKeepsLogged(s, p, w);
    case StartClose =>
  }

  lemma {:induction false} ExecIsGood(size: int, schedule: seq<Step>)
    requires Exec(New(size), schedule).Some?
    ensures Good(Exec(New(size), schedule).value)
  {
    if schedule != [] {
      ExecIsGood(size, schedule[..|schedule| - 1]);
      StepKeepsGood(Exec(New(size), schedule[..|schedule| - 1]).value, schedule[|schedule| - 1]);
    }
  }

  lemma ReachableIsGood(s: Bus)
    requires Reachable(s)
    ensures Good(s)
  {
    var size: int, schedule: seq<Step> :| Exec(New(size), schedule) == Some(s);
    ExecIsGood(size, schedule);
  }
}
