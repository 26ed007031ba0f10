/**
 The event bus as a step relation (core/pkg/eventbus/bus.go).

 Every goroutine inside the bus has a program counter: each Publish call, each Subscribe call together with its
 unsubscribe callback, the worker of each topic, and the body of Close.  Taking a mutex is one step; the critical
 section it protects, with the release, is the next one.  Subscribe releases `b.mu` while it holds `ts.mu`, so its
 sections are split there.  Channel operations, WaitGroup waits and atomic loads outside a lock are steps of their own.

 The fields `enqueued`, `dispatched`, `snaps` and `delivered` are logs: no step reads them.
 */
module BusModel {
  import opened Messages
  import opened Options

  type Pid = nat  // a Publish or Subscribe call, numbered by start
  type Tid = nat  // a topicState, numbered by creation

  datatype Result = Ok | ErrInvalidTopic | ErrInvalidHandler | ErrClosed | ErrContext

  datatype Envelope = Envelope(call: Pid, event: Event)

  datatype HandlerEntry = HandlerEntry(id: nat, handler: nat)

  /** Who holds `b.mu`. */
  datatype Holder = Free | ByCall(p: Pid) | ByClose

  /** The state of `ts.mu`. */
  datatype TopicLock = Open | Writing(p: Pid) | Reading

  /** The goroutine that waits for a call: one outside the bus, or the worker of a topic inside a handler. */
  datatype Waiter = Outside | InHandler(t: Tid)

  datatype PubPC =
    | PubEntry
    | PubLock
    | PubCheck
    | PubLockTopic
    | PubFind
    | PubTrySend(t: Tid)
    | PubBlocked(t: Tid)
    | PubLeave(r: Result)
    | PubReturned(r: Result)

  datatype SubPC =
    | SubEntry
    | SubLock
    | SubCheck
    | SubLockTopic(t: Tid)
    | SubHandOff(t: Tid)
    | SubInstall(t: Tid)
    | SubFailed(r: Result)
    | Installed(t: Tid, id: nat, from: nat)             // from: dispatches whose snapshot precedes the install
    | UnsubLock(t: Tid, id: nat, from: nat)
    | UnsubFilter(t: Tid, id: nat, from: nat)
    | Removed(t: Tid, id: nat, from: nat, upto: nat)    // upto: dispatches whose snapshot precedes the removal

  datatype Proc =
    | Publish(topic: string, event: Event, waiter: Waiter, ppc: PubPC)
    | Subscribe(topic: string, handler: Option<nat>, waiter: Waiter, spc: SubPC)

  /** The bus call a running handler is waiting for. */
  datatype Nested = Idle | OnPublish(p: Pid) | OnSubscribe(p: Pid) | OnUnsubscribe(p: Pid)

  datatype WorkerPC =
    | Receiving
    | Popped(env: Envelope)
    | Snapshotting(env: Envelope)
    | Dispatching(env: Envelope, snap: seq<HandlerEntry>, next: nat)
    | Calling(env: Envelope, snap: seq<HandlerEntry>, next: nat, budget: nat, nested: Nested)
    | Exited

  /** One handler call: the registration it was made for, its handler, and the envelope it was given. */
  datatype Delivery = Delivery(id: nat, handler: nat, env: Envelope)

  datatype TopicState = TopicState(
    name: string, queue: seq<Envelope>, chClosed: bool,
    lock: TopicLock, entries: seq<HandlerEntry>, worker: WorkerPC,
    enqueued: seq<Envelope>, dispatched: seq<Envelope>,
    snaps: seq<seq<HandlerEntry>>, delivered: seq<Delivery>)

  datatype ClosePC =
    | CloseIdle
    | CloseLock
    | CloseMark
    | CloseSignal(channels: set<Tid>)
    | CloseDrain(channels: set<Tid>)
    | CloseChannels(rest: set<Tid>)
    | CloseJoin
    | CloseReturned

  /** `fault` records what Go would panic on or the race detector would report: a send on a closed channel, a second
      close of a channel, a negative WaitGroup counter, an Add that races the Wait it must precede. */
  datatype Bus = Bus(
    cap: nat, closed: bool, done: bool, mu: Holder, topics: map<string, Tid>, ts: seq<TopicState>,
    publishWG: int, wg: int, nextSubID: nat, calls: seq<Proc>, closer: ClosePC, fault: bool)

  const DEFAULT_TOPIC_BUFFER_SIZE: nat := 64

  /** WithTopicBufferSize ignores a size that is not positive. */
  function New(bufferSize: int): Bus {
    var cap := if bufferSize > 0 then bufferSize else DEFAULT_TOPIC_BUFFER_SIZE;
    Bus(cap, false, false, Free, map[], [], 0, 0, 0, [], CloseIdle, false)
  }

  // ---------------------------------------------------------------- one step of a call

  /** What a step of a call does to the topics: nothing, create one, or replace the state of one. */
  datatype Change = Keep | Create(name: string) | Put(t: Tid, x: TopicState)

  /** What a step of a call does: the call itself, the bus mutex, the counters, and the topics. */
  datatype Move = Move(call: Proc, mu: Holder, publishWG: int, nextSubID: nat, fault: bool, change: Change)

  function Commit(s: Bus, p: Pid, m: Move): Bus
    requires p < |s.calls| && (m.change.Put? ==> m.change.t < |s.ts|)
  {
    var s1 := s.(calls := s.calls[p := m.call], mu := m.mu, publishWG := m.publishWG, nextSubID := m.nextSubID,
                 fault := s.fault || m.fault);
    match m.change
    case Keep => s1
    case Create(name) =>
      // creates the topic, counts its worker in `b.wg` and starts it
      s1.(topics := s.topics[name := |s.ts|], ts := s.ts + [FreshTopic(name)], wg := s.wg + 1,
          fault := s1.fault || s.closer.CloseJoin? || s.closer.CloseReturned?)
    case Put(t, x) => s1.(ts := s.ts[t := x])
  }

  function FreshTopic(name: string): TopicState {
    TopicState(name, [], false, Open, [], Receiving, [], [], [], [])
  }

  function Stay(s: Bus, c: Proc): Move {
    Move(c, s.mu, s.publishWG, s.nextSubID, false, Keep)
  }

  function WithTopic(s: Bus, t: Tid, x: TopicState): Bus
    requires t < |s.ts|
  {
    s.(ts := s.ts[t := x])
  }

  /** The unsubscribe closure copies every entry but its own. */
  function Without(entries: seq<HandlerEntry>, id: nat): seq<HandlerEntry> {
    if entries == [] then []
    else
      var front := Without(entries[..|entries| - 1], id);
      var last := entries[|entries| - 1];
      if last.id != id then front + [last] else front
  }

  predicate DrainBegun(c: ClosePC) {
    c.CloseDrain? || c.CloseChannels? || c.CloseJoin? || c.CloseReturned?
  }

  // ---------------------------------------------------------------- Publish

  /** What the blocking select of Publish picks. */
  datatype Branch = Send | Cancel | Wake

  predicate PublishReady(s: Bus, p: Pid, branch: Branch) {
    p < |s.calls| && s.calls[p].Publish? &&
    match s.calls[p].ppc
    case PubLock => s.mu == Free
    case PubLockTopic => s.mu == Free
    case PubTrySend(t) => t < |s.ts|
    case PubBlocked(t) =>
      t < |s.ts| && (branch == Send ==> s.ts[t].chClosed || |s.ts[t].queue| < s.cap) && (branch == Wake ==> s.done)
    case PubReturned(_) => false
    case _ => true
  }

  function Sent(x: TopicState, env: Envelope): TopicState {
    x.(queue := x.queue + [env], enqueued := x.enqueued + [env])
  }

  function PublishMove(s: Bus, p: Pid, branch: Branch): Move
    requires PublishReady(s, p, branch)
  {
    var c := s.calls[p];
    var stay := Stay(s, c);
    match c.ppc
    case PubEntry =>
      if c.topic == "" then stay.(call := c.(ppc := PubReturned(ErrInvalidTopic)))
      else if s.closed then stay.(call := c.(ppc := PubReturned(ErrClosed)))
      else stay.(call := c.(ppc := PubLock))
    case PubLock => stay.(call := c.(ppc := PubCheck), mu := ByCall(p))
    case PubCheck =>
      if s.closed then stay.(call := c.(ppc := PubReturned(ErrClosed)), mu := Free)
      else
        stay.(call := c.(ppc := PubLockTopic), mu := Free, publishWG := s.publishWG + 1, fault := DrainBegun(s.closer))
    case PubLockTopic => stay.(call := c.(ppc := PubFind), mu := ByCall(p))
    case PubFind =>
      if c.topic in s.topics then stay.(call := c.(ppc := PubTrySend(s.topics[c.topic])), mu := Free)
      else if s.closed then stay.(call := c.(ppc := PubLeave(ErrClosed)), mu := Free)
      else stay.(call := c.(ppc := PubTrySend(|s.ts|)), mu := Free, change := Create(c.topic))
    case PubTrySend(t) =>
      if s.ts[t].chClosed then stay.(fault := true)
      else if |s.ts[t].queue| < s.cap then
        stay.(call := c.(ppc := PubLeave(Ok)), change := Put(t, Sent(s.ts[t], Envelope(p, c.event))))
      else stay.(call := c.(ppc := PubBlocked(t)))
    case PubBlocked(t) =>
      (match branch
       case Send =>
         if s.ts[t].chClosed then stay.(fault := true)
         else stay.(call := c.(ppc := PubLeave(Ok)), change := Put(t, Sent(s.ts[t], Envelope(p, c.event))))
       case Cancel => stay.(call := c.(ppc := PubLeave(ErrContext)))
       case Wake => stay.(call := c.(ppc := PubLeave(ErrClosed))))
    case PubLeave(r) =>
      stay.(call := c.(ppc := PubReturned(r)), publishWG := s.publishWG - 1, fault := s.publishWG <= 0)
    case PubReturned(_) => stay
  }

  // ---------------------------------------------------------------- Subscribe and unsubscribe

  predicate SubscribeReady(s: Bus, p: Pid) {
    p < |s.calls| && s.calls[p].Subscribe? &&
    match s.calls[p].spc
    case SubLock => s.mu == Free
    case SubLockTopic(t) => t < |s.ts| && s.ts[t].lock == Open
    case SubHandOff(t) => true
    case SubInstall(t) => t < |s.ts|
    case UnsubLock(t, _, _) => t < |s.ts| && s.ts[t].lock == Open
    case UnsubFilter(t, _, _) => t < |s.ts|
    case SubFailed(_) => false
    case Installed(_, _, _) => false
    case Removed(_, _, _, _) => false
    case _ => true
  }

  /** A nil handler does not get past the entry checks. */
  function HandlerOf(c: Proc): nat
    requires c.Subscribe?
  {
    if c.handler.Some? then c.handler.value else 0
  }

  function SubscribeMove(s: Bus, p: Pid): Move
    requires SubscribeReady(s, p)
  {
    var c := s.calls[p];
    var stay := Stay(s, c);
    match c.spc
    case SubEntry =>
      if c.topic == "" then stay.(call := c.(spc := SubFailed(ErrInvalidTopic)))
      else if c.handler == None then stay.(call := c.(spc := SubFailed(ErrInvalidHandler)))
      else if s.closed then stay.(call := c.(spc := SubFailed(ErrClosed)))
      else stay.(call := c.(spc := SubLock))
    case SubLock => stay.(call := c.(spc := SubCheck), mu := ByCall(p))
    case SubCheck =>
      if s.closed then stay.(call := c.(spc := SubFailed(ErrClosed)), mu := Free)
      else if c.topic in s.topics then stay.(call := c.(spc := SubLockTopic(s.topics[c.topic])))
      else stay.(call := c.(spc := SubLockTopic(|s.ts|)), change := Create(c.topic))
    case SubLockTopic(t) => stay.(call := c.(spc := SubHandOff(t)), change := Put(t, s.ts[t].(lock := Writing(p))))
    case SubHandOff(t) => stay.(call := c.(spc := SubInstall(t)), mu := Free)
    case SubInstall(t) =>
      var x := s.ts[t];
      var id := s.nextSubID + 1;
      stay.(call := c.(spc := Installed(t, id, |x.snaps|)), nextSubID := id,
            change := Put(t, x.(lock := Open, entries := x.entries + [HandlerEntry(id, HandlerOf(c))])))
    case UnsubLock(t, id, from) =>
      stay.(call := c.(spc := UnsubFilter(t, id, from)), change := Put(t, s.ts[t].(lock := Writing(p))))
    case UnsubFilter(t, id, from) =>
      var x := s.ts[t];
      stay.(call := c.(spc := Removed(t, id, from, |x.snaps|)),
            change := Put(t, x.(lock := Open, entries := Without(x.entries, id))))
    case _ => stay
  }

  // ---------------------------------------------------------------- the topic worker

  /** The call a handler waits for has returned to it. */
  predicate NestedDone(s: Bus, n: Nested) {
    match n
    case Idle => true
    case OnPublish(p) => p < |s.calls| && s.calls[p].Publish? && s.calls[p].ppc.PubReturned?
    case OnSubscribe(p) =>
      p < |s.calls| && s.calls[p].Subscribe? &&
      (s.calls[p].spc.SubFailed? || s.calls[p].spc.Installed? || s.calls[p].spc.UnsubLock? ||
       s.calls[p].spc.UnsubFilter? || s.calls[p].spc.Removed?)
    case OnUnsubscribe(p) => p < |s.calls| && s.calls[p].Subscribe? && s.calls[p].spc.Removed?
  }

  predicate WorkerReady(s: Bus, t: Tid) {
    t < |s.ts| &&
    match s.ts[t].worker
    case Receiving => s.ts[t].queue != [] || s.ts[t].chClosed
    case Popped(_) => s.ts[t].lock == Open
    case Snapshotting(_) => true
    case Dispatching(_, _, _) => true
    case Calling(_, _, _, _, nested) => NestedDone(s, nested)
    case Exited => false
  }

  /** What a step of a worker does: its topic, and the count of live workers. */
  datatype Turn = Turn(x: TopicState, wg: int, fault: bool)

  /** `budget` bounds the bus calls the handler about to run will make; a handler makes finitely many. */
  function WorkerTurn(s: Bus, t: Tid, budget: nat): Turn
    requires WorkerReady(s, t)
  {
    var x := s.ts[t];
    match x.worker
    case Receiving =>
      if x.queue != [] then
        Turn(x.(queue := x.queue[1..], dispatched := x.dispatched + [x.queue[0]], worker := Popped(x.queue[0])),
             s.wg, false)
      else Turn(x.(worker := Exited), s.wg - 1, s.wg <= 0)
    case Popped(env) => Turn(x.(lock := Reading, worker := Snapshotting(env)), s.wg, false)
    case Snapshotting(env) =>
      Turn(x.(lock := Open, worker := Dispatching(env, x.entries, 0), snaps := x.snaps + [x.entries]), s.wg, false)
    case Dispatching(env, snap, next) =>
      if next < |snap| then
        Turn(x.(worker := Calling(env, snap, next, budget, Idle),
                delivered := x.delivered + [Delivery(snap[next].id, snap[next].handler, env)]), s.wg, false)
      else Turn(x.(worker := Receiving), s.wg, false)
    case Calling(env, snap, next, left, nested) =>
      if nested == Idle then Turn(x.(worker := Dispatching(env, snap, next + 1)), s.wg, false)
      else Turn(x.(worker := Calling(env, snap, next, left, Idle)), s.wg, false)
    case Exited => Turn(x, s.wg, false)
  }

  // ---------------------------------------------------------------- Close

  predicate CloseReady(s: Bus, t: Tid) {
    match s.closer
    case CloseIdle => false
    case CloseLock => s.mu == Free
    case CloseMark => true
    case CloseSignal(_) => true
    case CloseDrain(_) => s.publishWG == 0
    case CloseChannels(rest) => rest == {} || (t in rest && t < |s.ts|)
    case CloseJoin => s.wg == 0
    case CloseReturned => false
  }

  /** `t` is the channel that the loop over the snapshot closes next; a Go map has no fixed order. */
  function CloseStep(s: Bus, t: Tid): Bus
    requires CloseReady(s, t)
  {
    match s.closer
    case CloseIdle => s
    case CloseLock => s.(mu := ByClose, closer := CloseMark)
    case CloseMark => s.(closed := true, mu := Free, closer := CloseSignal(s.topics.Values))
    case CloseSignal(channels) => s.(done := true, fault := s.fault || s.done, closer := CloseDrain(channels))
    case CloseDrain(channels) => s.(closer := CloseChannels(channels))
    case CloseChannels(rest) =>
      if rest == {} then s.(closer := CloseJoin)
      else
        WithTopic(s, t, s.ts[t].(chClosed := true))
          .(closer := CloseChannels(rest - {t}), fault := s.fault || s.ts[t].chClosed)
    case CloseJoin => s.(closer := CloseReturned)
    case CloseReturned => s
  }

  // ---------------------------------------------------------------- calls arriving

  /** A handler may call the bus while it runs; anyone else may call it at any time. */
  predicate CanCall(s: Bus, w: Waiter) {
    match w
    case Outside => true
    case InHandler(t) =>
      t < |s.ts| && s.ts[t].worker.Calling? && s.ts[t].worker.nested == Idle && s.ts[t].worker.budget > 0
  }

  function Await(s: Bus, w: Waiter, n: Nested): Bus
    requires CanCall(s, w)
  {
    match w
    case Outside => s
    case InHandler(t) =>
      var k := s.ts[t].worker;
      WithTopic(s, t, s.ts[t].(worker := k.(budget := k.budget - 1, nested := n)))
  }

  datatype Step =
    | StartPublish(topic: string, event: Event, waiter: Waiter)
    | StartSubscribe(topic: string, handler: Option<nat>, waiter: Waiter)
    | StartUnsubscribe(p: Pid, waiter: Waiter)
    | StartClose
    | RunPublish(p: Pid, branch: Branch)
    | RunSubscribe(p: Pid)
    | RunWorker(t: Tid, budget: nat)
    | RunClose(t: Tid)

  predicate Enabled(s: Bus, step: Step) {
    match step
    case StartPublish(_, _, w) => CanCall(s, w)
    case StartSubscribe(_, _, w) => CanCall(s, w)
    case StartUnsubscribe(p, w) => CanCall(s, w) && p < |s.calls| && s.calls[p].Subscribe? && s.calls[p].spc.Installed?
    case StartClose => s.closer == CloseIdle
    case RunPublish(p, branch) => PublishReady(s, p, branch)
    case RunSubscribe(p) => SubscribeReady(s, p)
    case RunWorker(t, _) => WorkerReady(s, t)
    case RunClose(t) => CloseReady(s, t)
  }

  function Apply(s: Bus, step: Step): Bus
    requires Enabled(s, step)
  {
    match step
    case StartPublish(topic, event, w) =>
      var s1 := Await(s, w, OnPublish(|s.calls|));
      s1.(calls := s.calls + [Publish(topic, event, w, PubEntry)])
    case StartSubscribe(topic, handler, w) =>
      var s1 := Await(s, w, OnSubscribe(|s.calls|));
      s1.(calls := s.calls + [Subscribe(topic, handler, w, SubEntry)])
    case StartUnsubscribe(p, w) =>
      var pc := s.calls[p].spc;
      var s1 := Await(s, w, OnUnsubscribe(p));
      s1.(calls := s.calls[p := s.calls[p].(waiter := w, spc := UnsubLock(pc.t, pc.id, pc.from))])
    case StartClose => s.(closer := CloseLock)
    case RunPublish(p, branch) => Commit(s, p, PublishMove(s, p, branch))
    case RunSubscribe(p) => Commit(s, p, SubscribeMove(s, p))
    case RunWorker(t, budget) =>
      var turn := WorkerTurn(s, t, budget);
      s.(ts := s.ts[t := turn.x], wg := turn.wg, fault := s.fault || turn.fault)
    case RunClose(t) => CloseStep(s, t)
  }

  /** The state after a schedule; None when some step of it could not be taken. */
  function Exec(s: Bus, schedule: seq<Step>): Option<Bus> {
    if schedule == [] then Some(s)
    else
      var before := Exec(s, schedule[..|schedule| - 1]);
      var last := schedule[|schedule| - 1];
      if before.Some? && Enabled(before.value, last) then Some(Apply(before.value, last)) else None
  }

  /** The states that some schedule reaches on a new bus. */
  ghost predicate Reachable(s: Bus) {
    exists size: int, schedule: seq<Step> :: Exec(New(size), schedule) == Some(s)
  }
}
