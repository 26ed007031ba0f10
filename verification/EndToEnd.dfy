/**
 The decision handlers, the event bus and the audit bridge together: a decision's Publish is a call on the bus, and
 its result decides between landing and rollback.
 */
module EndToEnd {
  import opened Messages
  import opened Options
  import opened ProposalStore
  import D = DecisionProtocol
  import opened BusModel
  import opened BusDelivery
  import opened BusHistory
  import T = BusTheorems
  import A = AuditBridge
  import AuditTheorems
  import AuditOnce
  import AuditRows
  import opened Sums

  /** `sends` maps an attempt to its Publish call. */
  datatype World = World(net: A.Sys, desk: D.Desk, sends: map<nat, Pid>)

  const APPROVED_BINDING := 4
  const REJECTED_BINDING := 5

  function BindingOf(kind: Kind): nat {
    if kind == Approved then APPROVED_BINDING else REJECTED_BINDING
  }

  /** The topics that the decision handlers publish on. */
  function TerminalTopic(kind: Kind): string {
    if kind == Approved then "approval.tool_approved" else "approval.tool_rejected"
  }

  function TerminalType(kind: Kind): string {
    if kind == Approved then "approval.ToolApproved" else "approval.ToolRejected"
  }

  function EventOf(at: D.Attempt, correlation: string): Event {
    Value(Body(TerminalType(at.kind), at.proposal, correlation))
  }

  /** What the publishers call a decision, and what the bridge has bound. */
  lemma TerminalBindings(kind: Kind)
    requires ValidKind(kind)
    ensures A.BINDINGS[BindingOf(kind)]
      == A.Binding(TerminalTopic(kind), if kind == Approved then "tool_approved" else "tool_rejected", TerminalType(kind))
  {
  }

  predicate Terminal(topic: string) {
    topic == TerminalTopic(Approved) || topic == TerminalTopic(Rejected)
  }

  datatype Action =
    | Net(move: A.Action)                               // the bus, the bridge and everyone else
    | Begin(route: D.Route, kind: Kind, proposal: ProposalId, correlated: bool)
    | Proceed(a: nat, ok: bool)                         // a step of an attempt other than its publish
    | Send(a: nat, correlation: string)                 // the attempt calls Publish
    | Settle(a: nat)                                    // the attempt sees what Publish returned

  predicate PublishesTerminal(a: A.Action) {
    a.Other? && a.step.StartPublish? && Terminal(a.step.topic)
  }

  predicate SendEnabled(w: World, a: nat) {
    a < |w.desk.attempts| && w.desk.attempts[a].pc.Publishing? && a !in w.sends
  }

  predicate SettleEnabled(w: World, a: nat) {
    && a < |w.desk.attempts| && w.desk.attempts[a].pc.Publishing? && a in w.sends
    && w.sends[a] < |w.net.bus.calls| && w.net.bus.calls[w.sends[a]].Publish?
    && w.net.bus.calls[w.sends[a]].ppc.PubReturned?
  }

  /** Only the decision handlers publish on the two terminal topics. */
  predicate CanAct(w: World, action: Action) {
    match action
    case Net(a) => A.CanAct(w.net, a) && !PublishesTerminal(a)
    case Begin(route, kind, proposal, correlated) => D.Enabled(w.desk, D.Begin(route, kind, proposal, correlated))
    case Proceed(a, ok) => D.Enabled(w.desk, D.Run(a, ok)) && !w.desk.attempts[a].pc.Publishing?
    case Send(a, _) => SendEnabled(w, a)
    case Settle(a) => SettleEnabled(w, a)
  }

  function PublishStep(at: D.Attempt, correlation: string): Step {
    StartPublish(TerminalTopic(at.kind), EventOf(at, correlation), Outside)
  }

  function Act(w: World, action: Action): World
    requires CanAct(w, action)
  {
    match action
    case Net(a) => w.(net := A.Act(w.net, a))
    case Begin(route, kind, proposal, correlated) =>
      w.(desk := D.Apply(w.desk, D.Begin(route, kind, proposal, correlated)))
    case Proceed(a, ok) => w.(desk := D.Apply(w.desk, D.Run(a, ok)))
    case Send(a, correlation) =>
      World(A.Act(w.net, A.Other(PublishStep(w.desk.attempts[a], correlation))), w.desk,
            w.sends[a := |w.net.bus.calls|])
    case Settle(a) => w.(desk := D.Apply(w.desk, D.Run(a, w.net.bus.calls[w.sends[a]].ppc.r == Ok)))
  }

  function Run(w: World, actions: seq<Action>): Option<World> {
    if actions == [] then Some(w)
    else
      var before := Run(w, actions[..|actions| - 1]);
      var last := actions[|actions| - 1];
      if before.Some? && CanAct(before.value, last) then Some(Act(before.value, last)) else None
  }

  function NewWorld(bufferSize: int): World {
    World(A.Sys(New(bufferSize), A.Fresh), D.EMPTY_DESK, map[])
  }

  ghost predicate Attainable(w: World) {
    exists size: int, actions: seq<Action> :: Run(NewWorld(size), actions) == Some(w)
  }

  // ---------------------------------------------------------------- attempts and their Publish calls

  predicate Carries(event: Event, at: D.Attempt) {
    event.Value? && event.body.proposal == at.proposal
    && event.body.typeName == TerminalType(at.kind)
  }

  /** The call of an attempt says the attempt's decision, and the attempt lands exactly when the call returned nil. */
  predicate SendOk(c: Proc, at: D.Attempt) {
    && c.Publish? && c.topic == TerminalTopic(at.kind) && Carries(c.event, at)
    && match at.pc
       case Publishing(_) => true
       case Landed(_) => c.ppc == PubReturned(Ok)
       case Rollback(_) => c.ppc.PubReturned? && c.ppc.r != Ok
       case Finished(_) => c.ppc.PubReturned? && c.ppc.r != Ok
       case _ => false
  }

  predicate SentBy(sends: map<nat, Pid>, p: Pid) {
    exists a :: a in sends && sends[a] == p
  }

  predicate LinkOk(calls: seq<Proc>, attempts: seq<D.Attempt>, a: nat, p: Pid) {
    a < |attempts| && p < |calls| && SendOk(calls[p], attempts[a])
  }

  predicate CallOk(c: Proc, p: Pid, sends: map<nat, Pid>) {
    c.Publish? && Terminal(c.topic) ==> SentBy(sends, p)
  }

  ghost predicate Linked(calls: seq<Proc>, attempts: seq<D.Attempt>, sends: map<nat, Pid>) {
    && (forall a :: a in sends ==> LinkOk(calls, attempts, a, sends[a]))
    && (forall a, b :: a in sends && b in sends && a != b ==> sends[a] != sends[b])
    && (forall a :: 0 <= a < |attempts| && attempts[a].pc.Landed? ==> a in sends)
    && (forall p :: 0 <= p < |calls| ==> CallOk(calls[p], p, sends))
  }

  ghost predicate Inv(w: World) {
    A.Inv(w.net) && D.Valid(w.desk) && Linked(w.net.bus.calls, w.desk.attempts, w.sends)
  }

  /** What any action on the bus does to the calls already there, and which calls it may add. */
  ghost predicate CallsMove(calls: seq<Proc>, calls': seq<Proc>) {
    && |calls| <= |calls'|
    && (forall p :: 0 <= p < |calls| ==> Successor(calls[p], calls'[p]))
    && (forall p :: |calls| <= p < |calls'| ==> !(calls'[p].Publish? && Terminal(calls'[p].topic)))
  }

  lemma StepMovesCalls(s: Bus, step: Step)
    requires Enabled(s, step) && !(step.StartPublish? && Terminal(step.topic))
    ensures CallsMove(s.calls, Apply(s, step).calls)
  {
    CallsNeverFewer(s, step);
    forall p | 0 <= p < |s.calls|
      ensures Successor(s.calls[p], Apply(s, step).calls[p])
    {
      StepSuccessor(s, step, p);
    }
    AddedCall(s, step);
  }

  lemma NetMovesCalls(s: A.Sys, a: A.Action)
    requires A.CanAct(s, a) && !PublishesTerminal(a)
    ensures CallsMove(s.bus.calls, A.Act(s, a).bus.calls)
  {
    var s' := A.Act(s, a);
    if s'.bus != s.bus {
      match a
      case Other(step) => StepMovesCalls(s.bus, step);
      case CallStart => StepMovesCalls(s.bus, A.SubscribeTo(0));
      case CallStop =>
      case Advance =>
        if s.phase.Starting? {
          StepMovesCalls(s.bus, A.SubscribeTo(|s.phase.own| + 1));
        } else {
          StepMovesCalls(s.bus, StartUnsubscribe(s.phase.own[s.phase.at], Outside));
        }
    }
  }

  lemma CallsMoved(calls: seq<Proc>, calls': seq<Proc>, attempts: seq<D.Attempt>, sends: map<nat, Pid>)
    requires Linked(calls, attempts, sends) && CallsMove(calls, calls')
    ensures Linked(calls', attempts, sends)
  {
    forall a | a in sends
      ensures LinkOk(calls', attempts, a, sends[a])
    {
      assert LinkOk(calls, attempts, a, sends[a]);
      assert Successor(calls[sends[a]], calls'[sends[a]]);
    }
    forall p | 0 <= p < |calls'|
      ensures CallOk(calls'[p], p, sends)
    {
      if p < |calls| {
        assert CallOk(calls[p], p, sends) && Successor(calls[p], calls'[p]);
      }
    }
  }

  lemma AttemptMoved(calls: seq<Proc>, attempts: seq<D.Attempt>, sends: map<nat, Pid>, a: nat, at: D.Attempt)
    requires Linked(calls, attempts, sends) && a < |attempts|
    requires a in sends ==> sends[a] < |calls| && SendOk(calls[sends[a]], at)
    requires at.pc.Landed? ==> a in sends
    ensures Linked(calls, attempts[a := at], sends)
  {
    forall b | b in sends
      ensures LinkOk(calls, attempts[a := at], b, sends[b])
    {
      assert LinkOk(calls, attempts, b, sends[b]);
    }
  }

  lemma AttemptBegun(calls: seq<Proc>, attempts: seq<D.Attempt>, sends: map<nat, Pid>, at: D.Attempt)
    requires Linked(calls, attempts, sends) && !at.pc.Landed?
    ensures Linked(calls, attempts + [at], sends)
  {
    forall b | b in sends
      ensures LinkOk(calls, attempts + [at], b, sends[b])
    {
      assert LinkOk(calls, attempts, b, sends[b]);
    }
  }

  lemma CallSent(calls: seq<Proc>, attempts: seq<D.Attempt>, sends: map<nat, Pid>, a: nat, c: Proc)
    requires Linked(calls, attempts, sends) && a < |attempts| && a !in sends && SendOk(c, attempts[a])
    ensures Linked(calls + [c], attempts, sends[a := |calls|])
  {
    var calls', sends' := calls + [c], sends[a := |calls|];
    forall b | b in sends'
      ensures LinkOk(calls', attempts, b, sends'[b])
    {
      if b != a { assert LinkOk(calls, attempts, b, sends[b]); }
    }
    forall b | b in sends && b != a
      ensures sends[b] != |calls|
    {
      assert LinkOk(calls, attempts, b, sends[b]);
    }
    forall p | 0 <= p < |calls'|
      ensures CallOk(calls'[p], p, sends')
    {
      if p < |calls| {
        assert CallOk(calls[p], p, sends);
        SentStays(sends, a, |calls|, p);
      } else {
        assert sends'[a] == p;
      }
    }
  }

  lemma SentStays(sends: map<nat, Pid>, a: nat, p: Pid, q: Pid)
    requires a !in sends
    ensures SentBy(sends, q) ==> SentBy(sends[a := p], q)
  {
    if SentBy(sends, q) {
      var b :| b in sends && sends[b] == q;
      assert sends[a := p][b] == q;
    }
  }

  /** The attempt's own step, with the result that its Publish returned when it is publishing. */
  lemma ProceedKeepsLinked(w: World, a: nat, ok: bool)
    requires Inv(w) && a < |w.desk.attempts| && D.Active(w.desk.attempts[a])
    requires w.desk.attempts[a].pc.Publishing? ==> SettleEnabled(w, a) && ok == (w.net.bus.calls[w.sends[a]].ppc.r == Ok)
    ensures Linked(w.net.bus.calls, D.Apply(w.desk, D.Run(a, ok)).attempts, w.sends)
  {
    var at := w.desk.attempts[a];
    var (pc, d) := D.Advance(w.desk.decisions, at, ok);
    if a in w.sends {
      assert LinkOk(w.net.bus.calls, w.desk.attempts, a, w.sends[a]);
    }
    AttemptMoved(w.net.bus.calls, w.desk.attempts, w.sends, a, at.(pc := pc));
  }

  lemma SendKeepsInv(w: World, a: nat, correlation: string)
    requires Inv(w) && SendEnabled(w, a)
    ensures Inv(Act(w, Action.Send(a, correlation)))
  {
    var at := w.desk.attempts[a];
    var step := PublishStep(at, correlation);
    A.ActKeepsInv(w.net, A.Other(step));
    CallSent(w.net.bus.calls, w.desk.attempts, w.sends, a, Publish(step.topic, step.event, Outside, PubEntry));
  }

  lemma ActKeepsInv(w: World, action: Action)
    requires Inv(w) && CanAct(w, action)
    ensures Inv(Act(w, action))
  {
    match action
    case Net(a) =>
      A.ActKeepsInv(w.net, a);
      NetMovesCalls(w.net, a);
      CallsMoved(w.net.bus.calls, A.Act(w.net, a).bus.calls, w.desk.attempts, w.sends);
    case Begin(route, kind, proposal, correlated) =>
      D.StepKeepsValid(w.desk, D.Begin(route, kind, proposal, correlated));
      AttemptBegun(w.net.bus.calls, w.desk.attempts, w.sends, D.NewAttempt(route, kind, proposal, correlated));
    case Proceed(a, ok) =>
      D.StepKeepsValid(w.desk, D.Run(a, ok));
      ProceedKeepsLinked(w, a, ok);
    case Send(a, correlation) => SendKeepsInv(w, a, correlation);
    case Settle(a) =>
      var ok := w.net.bus.calls[w.sends[a]].ppc.r == Ok;
      D.StepKeepsValid(w.desk, D.Run(a, ok));
      ProceedKeepsLinked(w, a, ok);
  }

  lemma {:induction false} RunKeepsInv(w: World, actions: seq<Action>)
    requires Inv(w) && Run(w, actions).Some?
    ensures Inv(Run(w, actions).value)
  {
    if actions != [] {
      RunKeepsInv(w, actions[..|actions| - 1]);
      ActKeepsInv(Run(w, actions[..|actions| - 1]).value, actions[|actions| - 1]);
    }
  }

  lemma NewWorldInv(bufferSize: int)
    ensures Inv(NewWorld(bufferSize))
  {
    assert Exec(New(bufferSize), []) == Some(New(bufferSize));
  }

  lemma AttainableIsSound(w: World)
    requires Attainable(w)
    ensures Inv(w)
  {
    var size: int, actions: seq<Action> :| Run(NewWorld(size), actions) == Some(w);
    NewWorldInv(size);
    RunKeepsInv(NewWorld(size), actions);
  }

  // ---------------------------------------------------------------- at most one terminal event per proposal

  predicate TerminalEntry(w: World, t: Tid, i: nat, x: ProposalId) {
    && t < |w.net.bus.ts| && i < |w.net.bus.ts[t].enqueued| && Terminal(w.net.bus.ts[t].name)
    && w.net.bus.ts[t].enqueued[i].event.Value? && w.net.bus.ts[t].enqueued[i].event.body.proposal == x
  }

  /** An event on a terminal topic belongs to the attempt that holds the claim on its proposal. */
  lemma EntryHasOwner(w: World, t: Tid, i: nat) returns (a: nat)
    requires Inv(w) && t < |w.net.bus.ts| && i < |w.net.bus.ts[t].enqueued| && Terminal(w.net.bus.ts[t].name)
    ensures a in w.sends && w.sends[a] == w.net.bus.ts[t].enqueued[i].call && a < |w.desk.attempts|
    ensures D.Owns(w.desk.attempts[a]) && Carries(w.net.bus.ts[t].enqueued[i].event, w.desk.attempts[a])
    ensures w.net.bus.ts[t].name == TerminalTopic(w.desk.attempts[a].kind)
  {
    T.EntryHasLanded(w.net.bus, t, i);
    var p := w.net.bus.ts[t].enqueued[i].call;
    assert CallOk(w.net.bus.calls[p], p, w.sends);
    a :| a in w.sends && w.sends[a] == p;
    assert LinkOk(w.net.bus.calls, w.desk.attempts, a, p);
  }

  /** Over all topics and both kinds, at most one terminal event of a proposal ever enters a queue. */
  lemma OneTerminalEventOnTheBus(w: World, x: ProposalId, t: Tid, i: nat, u: Tid, j: nat)
    requires Attainable(w) && TerminalEntry(w, t, i, x) && TerminalEntry(w, u, j, x)
    ensures t == u && i == j
  {
    AttainableIsSound(w);
    var a := EntryHasOwner(w, t, i);
    var b := EntryHasOwner(w, u, j);
    assert a < b || b < a || a == b;
    OneCallOnePlace(w.net.bus, t, i, u, j);
  }

  lemma OneCallOnePlace(s: Bus, t: Tid, i: nat, u: Tid, j: nat)
    requires Reachable(s) && t < |s.ts| && i < |s.ts[t].enqueued| && u < |s.ts| && j < |s.ts[u].enqueued|
    requires s.ts[t].enqueued[i].call == s.ts[u].enqueued[j].call
    ensures t == u && i == j
  {
    ReachableIsGood(s);
    var p := s.ts[t].enqueued[i].call;
    T.OnlyPlace(s, p, t, i);
    T.OnlyPlace(s, p, u, j);
    assert (t, i) in T.Places(s, p);
  }

  // ---------------------------------------------------------------- at most one terminal row per proposal

  /** What a run of the whole did to the bus and the bridge is a run of theirs. */
  lemma {:induction false} NetRuns(w: World, actions: seq<Action>) returns (moves: seq<A.Action>)
    requires Run(w, actions).Some?
    ensures A.Run(w.net, moves) == Some(Run(w, actions).value.net)
  {
    if actions == [] {
      moves := [];
    } else {
      var before := actions[..|actions| - 1];
      var m, last := Run(w, before).value, actions[|actions| - 1];
      moves := NetRuns(w, before);
      if last.Net? || last.Send? {
        var move := NetMoves(m, last);
        assert (moves + [move])[..|moves|] == moves;
        moves := moves + [move];
      } else {
        NetStays(m, last);
      }
    }
  }

  /** What a step does to the bus and the bridge. */
  lemma NetMoves(w: World, action: Action) returns (move: A.Action)
    requires CanAct(w, action) && (action.Net? || action.Send?)
    ensures A.CanAct(w.net, move) && Act(w, action).net == A.Act(w.net, move)
  {
    move := if action.Net? then action.move else A.Other(PublishStep(w.desk.attempts[action.a], action.correlation));
  }

  lemma NetStays(w: World, action: Action)
    requires CanAct(w, action) && !action.Net? && !action.Send?
    ensures Act(w, action).net == w.net
  {
  }

  /** The bridge was running before anything entered a queue of a terminal topic. */
  ghost predicate BridgeFirst(w: World) {
    && Attainable(w) && w.net.phase.Running?
    && forall t :: 0 <= t < |w.net.bus.ts| && Terminal(w.net.bus.ts[t].name) ==> w.net.bus.ts[t].enqueued == []
  }

  lemma BridgeFirstStarts(w: World, kind: Kind)
    requires BridgeFirst(w) && ValidKind(kind)
    ensures AuditTheorems.StartedFirst(w.net, BindingOf(kind))
  {
    var size: int, actions: seq<Action> :| Run(NewWorld(size), actions) == Some(w);
    var moves := NetRuns(NewWorld(size), actions);
  }

  function CountAbout(rows: seq<A.Row>, x: ProposalId): nat {
    if rows == [] then 0
    else CountAbout(rows[..|rows| - 1], x) + if rows[|rows| - 1].payload.proposal == x then 1 else 0
  }

  predicate About(env: Envelope, x: ProposalId) {
    (env.event.Value? || env.event.Pointer?) && env.event.body.proposal == x
  }

  lemma CountLast(k: nat, envs: seq<Envelope>, x: ProposalId)
    requires k < A.N && envs != []
    ensures var n := |envs| - 1;
      CountAbout(A.Attempts(k, envs), x) == CountAbout(A.Attempts(k, envs[..n]), x)
        + if A.Extract(k, envs[n].event).Some? && About(envs[n], x) then 1 else 0
  {
    var n := |envs| - 1;
    var front := A.Attempts(k, envs[..n]);
    if A.Extract(k, envs[n].event).Some? {
      var body := A.Extract(k, envs[n].event).value;
      var row := A.Row(A.BINDINGS[k].eventType, body, body.correlation);
      assert (front + [row])[..|front|] == front;
    }
  }

  lemma {:induction false} CountNone(k: nat, envs: seq<Envelope>, x: ProposalId)
    requires k < A.N && forall i :: 0 <= i < |envs| ==> !About(envs[i], x)
    ensures CountAbout(A.Attempts(k, envs), x) == 0
  {
    if envs != [] {
      CountNone(k, envs[..|envs| - 1], x);
      CountLast(k, envs, x);
    }
  }

  lemma {:induction false} CountAtMostOne(k: nat, envs: seq<Envelope>, x: ProposalId)
    requires k < A.N && forall i, j :: 0 <= i < j < |envs| ==> !(About(envs[i], x) && About(envs[j], x))
    ensures CountAbout(A.Attempts(k, envs), x) <= 1
  {
    if envs != [] {
      var n := |envs| - 1;
      CountLast(k, envs, x);
      if About(envs[n], x) {
        assert forall i :: 0 <= i < n ==> !About(envs[..n][i], x);
        CountNone(k, envs[..n], x);
      } else {
        CountAtMostOne(k, envs[..n], x);
      }
    }
  }

  lemma EntryAbout(w: World, t: Tid, i: nat, x: ProposalId)
    requires Inv(w) && t < |w.net.bus.ts| && i < |w.net.bus.ts[t].enqueued| && Terminal(w.net.bus.ts[t].name)
    requires About(w.net.bus.ts[t].enqueued[i], x)
    ensures TerminalEntry(w, t, i, x)
  {
    var a := EntryHasOwner(w, t, i);
  }

  /** The rows of the two terminal bindings about one proposal that one topic gave rise to. */
  function RowsOn(x: TopicState, proposal: ProposalId): nat {
    CountAbout(A.Rows(APPROVED_BINDING, x), proposal) + CountAbout(A.Rows(REJECTED_BINDING, x), proposal)
  }

  /** How many of these rows have this event type and are about this proposal. */
  function CountSaying(rows: seq<A.Row>, eventType: string, x: ProposalId): nat {
    if rows == [] then 0
    else
      var last := rows[|rows| - 1];
      CountSaying(rows[..|rows| - 1], eventType, x) + if last.eventType == eventType && last.payload.proposal == x then 1 else 0
  }

  /** ... over the rows of the first `n` bindings that one topic gave rise to. */
  function SayingOn(y: TopicState, eventType: string, x: ProposalId, n: nat): nat
    requires n <= A.N
  {
    if n == 0 then 0 else SayingOn(y, eventType, x, n - 1) + CountSaying(A.Rows(n - 1, y), eventType, x)
  }

  /** The whole log: how many rows there are with this event type about this proposal. */
  ghost function RowsSaying(w: World, eventType: string, x: ProposalId): nat {
    Sum(w.net.bus.ts, (y: TopicState) => SayingOn(y, eventType, x, A.N))
  }

  /** A binding's rows have its event type, and no other. */
  lemma {:induction false} CountOfBinding(k: nat, envs: seq<Envelope>, eventType: string, x: ProposalId)
    requires k < A.N
    ensures CountSaying(A.Attempts(k, envs), eventType, x)
      == if eventType == A.BINDINGS[k].eventType then CountAbout(A.Attempts(k, envs), x) else 0
  {
    if envs != [] {
      var front := A.Attempts(k, envs[..|envs| - 1]);
      CountOfBinding(k, envs[..|envs| - 1], eventType, x);
      match A.Extract(k, envs[|envs| - 1].event) {
        case None =>
        case Some(body) =>
          assert (front + [A.Row(A.BINDINGS[k].eventType, body, body.correlation)])[..|front|] == front;
      }
    }
  }

  lemma RowsOfBinding(y: TopicState, k: nat, b: nat, x: ProposalId)
    requires k < A.N && b < A.N
    ensures CountSaying(A.Rows(k, y), A.BINDINGS[b].eventType, x) == if k == b then CountAbout(A.Rows(b, y), x) else 0
  {
    CountOfBinding(k, A.HandledBy(y.delivered, k), A.BINDINGS[b].eventType, x);
    if k < b { AuditTheorems.BindingsAreDistinct(k, b); }
    if k > b { AuditTheorems.BindingsAreDistinct(b, k); }
  }

  lemma {:induction false} OnlyOneBindingSays(y: TopicState, b: nat, x: ProposalId, n: nat)
    requires b < A.N && n <= A.N
    ensures SayingOn(y, A.BINDINGS[b].eventType, x, n) == if n > b then CountAbout(A.Rows(b, y), x) else 0
  {
    if n > 0 {
      OnlyOneBindingSays(y, b, x, n - 1);
      RowsOfBinding(y, n - 1, b, x);
    }
  }

  /** All the rows that say "tool_approved" or "tool_rejected" come from the two terminal bindings. */
  lemma TerminalRowsOn(y: TopicState, x: ProposalId)
    ensures SayingOn(y, "tool_approved", x, A.N) == CountAbout(A.Rows(APPROVED_BINDING, y), x)
    ensures SayingOn(y, "tool_rejected", x, A.N) == CountAbout(A.Rows(REJECTED_BINDING, y), x)
  {
    TerminalBindings(Approved);
    TerminalBindings(Rejected);
    OnlyOneBindingSays(y, APPROVED_BINDING, x, A.N);
    OnlyOneBindingSays(y, REJECTED_BINDING, x, A.N);
  }

  lemma RowsSayingSplit(w: World, x: ProposalId)
    ensures RowsSaying(w, "tool_approved", x) + RowsSaying(w, "tool_rejected", x)
      == Sum(w.net.bus.ts, (y: TopicState) => RowsOn(y, x))
  {
    forall i | 0 <= i < |w.net.bus.ts|
      ensures RowsOn(w.net.bus.ts[i], x)
        == SayingOn(w.net.bus.ts[i], "tool_approved", x, A.N) + SayingOn(w.net.bus.ts[i], "tool_rejected", x, A.N)
    {
      TerminalRowsOn(w.net.bus.ts[i], x);
    }
    SumSplit(w.net.bus.ts, (y: TopicState) => SayingOn(y, "tool_approved", x, A.N),
             (y: TopicState) => SayingOn(y, "tool_rejected", x, A.N), (y: TopicState) => RowsOn(y, x));
  }

  lemma NetIsAttainable(w: World)
    requires Attainable(w)
    ensures A.Attainable(w.net)
  {
    var size: int, actions: seq<Action> :| Run(NewWorld(size), actions) == Some(w);
    var moves := NetRuns(NewWorld(size), actions);
  }

  /** The handler of a terminal binding makes at most one row about a proposal, and only if an event about it stands on
      its topic. */
  lemma RowsOfOneBinding(w: World, kind: Kind, t: Tid, x: ProposalId)
    requires Attainable(w) && ValidKind(kind) && t < |w.net.bus.ts|
    ensures var n := CountAbout(A.Rows(BindingOf(kind), w.net.bus.ts[t]), x);
      n <= 1 && (n > 0 ==> w.net.bus.ts[t].name == TerminalTopic(kind) && Mentioned(w, t, x))
  {
    NetIsAttainable(w);
    if w.net.bus.ts[t].name != TerminalTopic(kind) {
      AuditTheorems.RowsOnlyFromOwnTopic(w.net, BindingOf(kind), t);
    } else {
      AuditOnce.HandledOnce(w.net, BindingOf(kind), t);
      RowsOfHandled(w, BindingOf(kind), t, x, A.HandledBy(w.net.bus.ts[t].delivered, BindingOf(kind)));
    }
  }

  ghost predicate Mentioned(w: World, t: Tid, x: ProposalId)
    requires t < |w.net.bus.ts|
  {
    exists i: nat :: i < |w.net.bus.ts[t].enqueued| && TerminalEntry(w, t, i, x)
  }

  lemma RowsOfHandled(w: World, k: nat, t: Tid, x: ProposalId, envs: seq<Envelope>)
    requires Attainable(w) && k < A.N && t < |w.net.bus.ts| && Terminal(w.net.bus.ts[t].name)
    requires AuditOnce.Distinct(envs) && AuditOnce.Among(envs, w.net.bus.ts[t].enqueued)
    ensures CountAbout(A.Attempts(k, envs), x) <= 1
    ensures CountAbout(A.Attempts(k, envs), x) > 0 ==> Mentioned(w, t, x)
  {
    forall i, j | 0 <= i < j < |envs|
      ensures !(About(envs[i], x) && About(envs[j], x))
    {
      if About(envs[i], x) && About(envs[j], x) {
        var a := PlaceOf(w, t, x, envs[i]);
        var b := PlaceOf(w, t, x, envs[j]);
        OneTerminalEventOnTheBus(w, x, t, a, t, b);
      }
    }
    CountAtMostOne(k, envs, x);
    if i: nat :| i < |envs| && About(envs[i], x) {
      var a := PlaceOf(w, t, x, envs[i]);
    } else {
      CountNone(k, envs, x);
    }
  }

  lemma PlaceOf(w: World, t: Tid, x: ProposalId, env: Envelope) returns (i: nat)
    requires Attainable(w) && t < |w.net.bus.ts| && Terminal(w.net.bus.ts[t].name)
    requires env in w.net.bus.ts[t].enqueued && About(env, x)
    ensures i < |w.net.bus.ts[t].enqueued| && w.net.bus.ts[t].enqueued[i] == env && TerminalEntry(w, t, i, x)
  {
    AttainableIsSound(w);
    i :| 0 <= i < |w.net.bus.ts[t].enqueued| && w.net.bus.ts[t].enqueued[i] == env;
    EntryAbout(w, t, i, x);
  }

  lemma RowsOfOneTopic(w: World, t: Tid, x: ProposalId)
    requires Attainable(w) && t < |w.net.bus.ts|
    ensures RowsOn(w.net.bus.ts[t], x) <= 1
    ensures RowsOn(w.net.bus.ts[t], x) > 0 ==> Mentioned(w, t, x)
  {
    RowsOfOneBinding(w, Approved, t, x);
    RowsOfOneBinding(w, Rejected, t, x);
    AuditTheorems.BindingsAreDistinct(APPROVED_BINDING, REJECTED_BINDING);
  }

  /** End to end, in every attainable state: however many webhooks and clicks raced, whatever failed and was rolled
      back, and however often the bridge was started, rolled back or stopped in between, a proposal has at most one row
      that says approved or rejected. */
  lemma AtMostOneTerminalRow(w: World, x: ProposalId)
    requires Attainable(w)
    ensures RowsSaying(w, "tool_approved", x) + RowsSaying(w, "tool_rejected", x) <= 1
  {
    var weight := (y: TopicState) => RowsOn(y, x);
    forall t | 0 <= t < |w.net.bus.ts|
      ensures weight(w.net.bus.ts[t]) <= 1
    {
      RowsOfOneTopic(w, t, x);
    }
    forall t, u | 0 <= t < u < |w.net.bus.ts|
      ensures weight(w.net.bus.ts[t]) == 0 || weight(w.net.bus.ts[u]) == 0
    {
      if weight(w.net.bus.ts[t]) > 0 && weight(w.net.bus.ts[u]) > 0 { OnlyOneTopic(w, x, t, u); }
    }
    SumAtMostOne(w.net.bus.ts, weight);
    RowsSayingSplit(w, x);
  }

  lemma CountsAreDecisions(w: World, kind: Kind, t: Tid, x: ProposalId)
    requires Attainable(w) && ValidKind(kind) && t < |w.net.bus.ts|
    requires CountAbout(A.Rows(BindingOf(kind), w.net.bus.ts[t]), x) > 0
    ensures x in w.desk.decisions && w.desk.decisions[x] == kind
  {
    AttainableIsSound(w);
    RowsOfOneBinding(w, kind, t, x);
    var i: nat :| i < |w.net.bus.ts[t].enqueued| && TerminalEntry(w, t, i, x);
    var a := EntryHasOwner(w, t, i);
    TerminalBindings(Approved);
    TerminalBindings(Rejected);
    assert D.Owns(w.desk.attempts[a]);
  }

  lemma {:induction false} CountsRow(rows: seq<A.Row>, j: nat)
    requires j < |rows|
    ensures CountAbout(rows, rows[j].payload.proposal) > 0
  {
    if j < |rows| - 1 { CountsRow(rows[..|rows| - 1], j); }
  }

  /** A row that says approved or rejected, made by whatever binding on whatever topic, is true: the stored decision of
      the proposal it is about is of that kind, and it holds the struct of that kind. */
  lemma RowMeansDecision(w: World, k: nat, t: Tid, j: nat)
    requires Attainable(w) && k < A.N && t < |w.net.bus.ts| && j < |A.Rows(k, w.net.bus.ts[t])|
    ensures var row := A.Rows(k, w.net.bus.ts[t])[j];
      && (row.eventType == "tool_approved" ==>
            && row.payload.proposal in w.desk.decisions && w.desk.decisions[row.payload.proposal] == Approved
            && row.payload.typeName == "approval.ToolApproved")
      && (row.eventType == "tool_rejected" ==>
            && row.payload.proposal in w.desk.decisions && w.desk.decisions[row.payload.proposal] == Rejected
            && row.payload.typeName == "approval.ToolRejected")
  {
    var row := A.Rows(k, w.net.bus.ts[t])[j];
    NetIsAttainable(w);
    AuditRows.DecisionRowsAreNamed(w.net, k, t, j);
    CountsRow(A.Rows(k, w.net.bus.ts[t]), j);
    if row.eventType == "tool_approved" { CountsAreDecisions(w, Approved, t, row.payload.proposal); }
    if row.eventType == "tool_rejected" { CountsAreDecisions(w, Rejected, t, row.payload.proposal); }
  }

  lemma OnlyOneTopic(w: World, x: ProposalId, t: Tid, u: Tid)
    requires Attainable(w) && t < |w.net.bus.ts| && u < |w.net.bus.ts|
    requires RowsOn(w.net.bus.ts[t], x) > 0 && RowsOn(w.net.bus.ts[u], x) > 0
    ensures t == u
  {
    RowsOfOneTopic(w, t, x);
    RowsOfOneTopic(w, u, x);
    var i: nat :| i < |w.net.bus.ts[t].enqueued| && TerminalEntry(w, t, i, x);
    var j: nat :| j < |w.net.bus.ts[u].enqueued| && TerminalEntry(w, u, j, x);
    OneTerminalEventOnTheBus(w, x, t, i, u, j);
  }

  lemma HandledFromTheFirst(w0: World, actions: seq<Action>, kind: Kind, t: Tid)
    requires BridgeFirst(w0) && Run(w0, actions).Some? && ValidKind(kind)
    requires var w := Run(w0, actions).value;
      w.net.phase.Running? && t < |w.net.bus.ts| && w.net.bus.ts[t].name == TerminalTopic(kind)
    ensures var w := Run(w0, actions).value; AuditTheorems.HandledInOrder(w.net.bus, BindingOf(kind), t)
  {
    BridgeFirstStarts(w0, kind);
    var moves := NetRuns(w0, actions);
    AuditTheorems.HandledAreTheEnqueued(w0.net, moves, BindingOf(kind), t);
  }

  lemma AttainableExtends(w0: World, actions: seq<Action>)
    requires Attainable(w0) && Run(w0, actions).Some?
    ensures Attainable(Run(w0, actions).value)
  {
    var size: int, before: seq<Action> :| Run(NewWorld(size), before) == Some(w0);
    RunConcat(NewWorld(size), before, actions);
  }

  lemma {:induction false} RunConcat(w: World, a: seq<Action>, b: seq<Action>)
    requires Run(w, a).Some?
    ensures Run(w, a + b) == Run(Run(w, a).value, b)
  {
    if b == [] {
      assert a + b == a;
    } else {
      var n := |b| - 1;
      assert (a + b)[..|a + b| - 1] == a + b[..n];
      RunConcat(w, a, b[..n]);
    }
  }

  /** The row that a decision asks for: what its attempt published, under the event type of its kind. */
  function DecisionRow(kind: Kind, body: Body): A.Row {
    A.Row(if kind == Approved then "tool_approved" else "tool_rejected", body, body.correlation)
  }

  /** The bridge was running before the first decision was published and when Close returned; then Stop and anything
      else may have happened: a decision whose publish succeeded is in the log exactly once, under its own kind and not
      under the other, with the struct that its attempt published. */
  lemma LandedDecisionIsAudited(w0: World, before: seq<Action>, after: seq<Action>, l: nat) returns (t: Tid, j: nat)
    requires BridgeFirst(w0) && Run(w0, before).Some? && Run(Run(w0, before).value, after).Some?
    requires var w1 := Run(w0, before).value; w1.net.phase.Running? && w1.net.bus.closer == CloseReturned
    requires l < |Run(Run(w0, before).value, after).value.desk.published|
    ensures var w := Run(Run(w0, before).value, after).value; var landing := w.desk.published[l];
      && (landing.kind == Approved ==>
            RowsSaying(w, "tool_approved", landing.proposal) == 1 && RowsSaying(w, "tool_rejected", landing.proposal) == 0)
      && (landing.kind == Rejected ==>
            RowsSaying(w, "tool_rejected", landing.proposal) == 1 && RowsSaying(w, "tool_approved", landing.proposal) == 0)
      && t < |w.net.bus.ts| && j < |A.Rows(BindingOf(landing.kind), w.net.bus.ts[t])|
      && landing.attempt in w.sends && w.sends[landing.attempt] < |w.net.bus.calls|
      && var call := w.net.bus.calls[w.sends[landing.attempt]];
         && call.Publish? && call.event.Value? && call.event.body.proposal == landing.proposal
         && A.Rows(BindingOf(landing.kind), w.net.bus.ts[t])[j] == DecisionRow(landing.kind, call.event.body)
  {
    var w1 := Run(w0, before).value;
    var w := Run(w1, after).value;
    AttainableExtends(w0, before);
    AttainableExtends(w1, after);
    AttainableIsSound(w);
    var landing := w.desk.published[l];
    assert D.LandingOk(w.desk.attempts, landing);
    var p := w.sends[landing.attempt];
    assert LinkOk(w.net.bus.calls, w.desk.attempts, landing.attempt, p);
    var i: nat;
    t, i := EntryOfCall(w.net.bus, p);
    HandledAfterClose(w0, before, after, landing.kind, t);
    j := RowOfEntry(w, landing.kind, t, i);
    CountsRow(A.Rows(BindingOf(landing.kind), w.net.bus.ts[t]), j);
    LandedCounts(w, landing.kind, t, landing.proposal);
  }

  /** The row made for an event that the handler of its kind was given. */
  lemma RowOfEntry(w: World, kind: Kind, t: Tid, i: nat) returns (j: nat)
    requires ValidKind(kind) && t < |w.net.bus.ts| && i < |w.net.bus.ts[t].enqueued|
    requires var x := w.net.bus.ts[t];
      A.HandledBy(x.delivered, BindingOf(kind)) == x.enqueued
      && x.enqueued[i].event.Value? && x.enqueued[i].event.body.typeName == TerminalType(kind)
    ensures j < |A.Rows(BindingOf(kind), w.net.bus.ts[t])|
    ensures A.Rows(BindingOf(kind), w.net.bus.ts[t])[j] == DecisionRow(kind, w.net.bus.ts[t].enqueued[i].event.body)
  {
    var e := if kind == Approved then AuditRows.ToolApproved else AuditRows.ToolRejected;
    var envs := w.net.bus.ts[t].enqueued;
    var places := AuditRows.RowsMatchEvents(e, envs);
    assert AuditRows.Carries(envs[i].event, e, envs[i].event.body);
    j :| 0 <= j < |places| && places[j] == i;
    assert AuditRows.RowOf(A.Rows(BindingOf(kind), w.net.bus.ts[t])[j], envs[places[j]].event, e);
  }

  /** One row of a kind about a proposal, and so none of the other kind. */
  lemma LandedCounts(w: World, kind: Kind, t: Tid, x: ProposalId)
    requires Attainable(w) && ValidKind(kind) && t < |w.net.bus.ts|
    requires CountAbout(A.Rows(BindingOf(kind), w.net.bus.ts[t]), x) > 0
    ensures kind == Approved ==> RowsSaying(w, "tool_approved", x) == 1 && RowsSaying(w, "tool_rejected", x) == 0
    ensures kind == Rejected ==> RowsSaying(w, "tool_rejected", x) == 1 && RowsSaying(w, "tool_approved", x) == 0
  {
    AtMostOneTerminalRow(w, x);
    TerminalRowsOn(w.net.bus.ts[t], x);
    if kind == Approved {
      SumAtLeast(w.net.bus.ts, (y: TopicState) => SayingOn(y, "tool_approved", x, A.N), t);
    } else {
      SumAtLeast(w.net.bus.ts, (y: TopicState) => SayingOn(y, "tool_rejected", x, A.N), t);
    }
  }

  /** What the bridge was given when Close had returned is all there was, and nothing changes it any more. */
  lemma HandledAfterClose(w0: World, before: seq<Action>, after: seq<Action>, kind: Kind, t: Tid)
    requires BridgeFirst(w0) && Run(w0, before).Some? && Run(Run(w0, before).value, after).Some? && ValidKind(kind)
    requires var w1 := Run(w0, before).value; w1.net.phase.Running? && w1.net.bus.closer == CloseReturned
    requires var w := Run(Run(w0, before).value, after).value;
      t < |w.net.bus.ts| && w.net.bus.ts[t].name == TerminalTopic(kind)
    ensures var x := Run(Run(w0, before).value, after).value.net.bus.ts[t];
      A.HandledBy(x.delivered, BindingOf(kind)) == x.enqueued
  {
    var w1 := Run(w0, before).value;
    AttainableExtends(w0, before);
    AttainableIsSound(w1);
    var moves := NetRuns(w1, after);
    AuditTheorems.RowsStayAfterClose(w1.net, moves);
    HandledFromTheFirst(w0, before, kind, t);
  }

  lemma EntryOfCall(s: Bus, p: Pid) returns (t: Tid, i: nat)
    requires Reachable(s) && p < |s.calls| && s.calls[p].Publish? && s.calls[p].ppc == PubReturned(Ok)
    ensures t < |s.ts| && i < |s.ts[t].enqueued| && s.ts[t].name == s.calls[p].topic
    ensures s.ts[t].enqueued[i] == Envelope(p, s.calls[p].event)
  {
    T.PublishResult(s, p);
    t, i :|
      && T.Places(s, p) == {(t, i)} && t < |s.ts| && i < |s.ts[t].enqueued|
      && s.ts[t].name == s.calls[p].topic && s.ts[t].enqueued[i] == Envelope(p, s.calls[p].event);
  }
}
