/**
 The audit subscriber (core/pkg/auditsubscriber) running on the event bus: Start installs one handler per binding or
 none, Stop removes them, and each handler turns an event into one append to the keeper's log.
 */
module AuditBridge {
  import opened Messages
  import opened BusModel
  import opened BusHistory
  import opened BusTheorems
  import opened Options

  // ---------------------------------------------------------------- bindings and extractors

  datatype Binding = Binding(topic: string, eventType: string, expectedType: string)

  const BINDINGS: seq<Binding> := [
    Binding("toolregistry.source_synced", "source_synced", "toolregistry.SourceSynced"),
    Binding("toolregistry.source_failed", "source_failed", "toolregistry.SourceFailed"),
    Binding("toolregistry.tool_shadowed", "tool_shadowed", "toolregistry.ToolShadowed"),
    Binding("approval.tool_proposed", "tool_proposed", "approval.ToolProposed"),
    Binding("approval.tool_approved", "tool_approved", "approval.ToolApproved"),
    Binding("approval.tool_rejected", "tool_rejected", "approval.ToolRejected"),
    Binding("approval.tool_dry_run_executed", "tool_dry_run_executed", "approval.DryRunExecuted"),
    Binding("localpatch.local_patch_applied", "local_patch_applied", "localpatch.LocalPatchApplied"),
    Binding("hostedexport.hosted_tool_exported", "hosted_tool_exported", "hostedexport.HostedToolExported"),
    Binding("toolshare.tool_share_proposed", "tool_share_proposed", "toolshare.ToolShareProposed"),
    Binding("toolshare.tool_share_pr_opened", "tool_share_pr_opened", "toolshare.ToolSharePROpened")]

  const N: nat := 11

  function TopicName(k: nat): string
    requires k < N
  {
    BINDINGS[k].topic
  }

  datatype Row = Row(eventType: string, payload: Body, correlation: string)

  /** What an extractor accepts: the struct or a non-nil pointer to it. */
  function Extract(k: nat, event: Event): Option<Body>
    requires k < N
  {
    match event
    case Value(body) => if body.typeName == BINDINGS[k].expectedType then Some(body) else None
    case Pointer(body) => if body.typeName == BINDINGS[k].expectedType then Some(body) else None
    case NilPointer(_) => None
  }

  /** The appends that the handler of binding `k` attempts for the events it is given, in order. */
  function Attempts(k: nat, envs: seq<Envelope>): seq<Row>
    requires k < N
  {
    if envs == [] then []
    else
      var front := Attempts(k, envs[..|envs| - 1]);
      match Extract(k, envs[|envs| - 1].event)
      case None => front
      case Some(body) => front + [Row(BINDINGS[k].eventType, body, body.correlation)]
  }

  /** The events given to one handler, whatever registrations it had. */
  function HandledBy(log: seq<Delivery>, handler: nat): seq<Envelope> {
    if log == [] then []
    else
      var front := HandledBy(log[..|log| - 1], handler);
      var last := log[|log| - 1];
      if last.handler == handler then front + [last.env] else front
  }

  /** The appends attempted by the handler of binding `k` on topic `x`. */
  function Rows(k: nat, x: TopicState): seq<Row>
    requires k < N
  {
    Attempts(k, HandledBy(x.delivered, k))
  }

  // ---------------------------------------------------------------- Start and Stop as a goroutine of the bus

  /** `own` are the Subscribe calls whose unsubscribe callbacks the bridge holds.  `Removing` runs those callbacks in
      order, for the rollback of Start or for Stop; `waiting` means that the callback at position `at` is running. */
  datatype Phase =
    | Fresh
    | Starting(own: seq<Pid>, pid: Pid)
    | Running(own: seq<Pid>)
    | Removing(own: seq<Pid>, at: nat, waiting: bool, stopping: bool)
    | Stopped

  datatype Sys = Sys(bus: Bus, phase: Phase)

  datatype Action = CallStart | CallStop | Advance | Other(step: Step)

  predicate BridgeCall(c: Proc) {
    c.Subscribe? && c.handler.Some? && c.handler.value < N
  }

  /** Everyone else may take any step of the bus, but cannot register the bridge's closures or run its callbacks. */
  predicate OtherAllowed(s: Bus, step: Step) {
    && Enabled(s, step)
    && (step.StartSubscribe? ==> !(step.handler.Some? && step.handler.value < N))
    && (step.StartUnsubscribe? ==> !BridgeCall(s.calls[step.p]))
  }

  /** Start returns an error at once when `started` or `stopped` is set, and Stop returns at once when `stopped` is. */
  predicate CanAct(s: Sys, a: Action) {
    match a
    case CallStart => s.phase == Fresh
    case CallStop => s.phase == Fresh || s.phase.Running?
    case Other(step) => OtherAllowed(s.bus, step)
    case Advance =>
      (match s.phase
       case Starting(own, pid) =>
         |own| < N && pid < |s.bus.calls| && s.bus.calls[pid].Subscribe? &&
         (s.bus.calls[pid].spc.SubFailed? || s.bus.calls[pid].spc.Installed?)
       case Removing(own, at, waiting, _) =>
         at <= |own| &&
         (at < |own| ==> own[at] < |s.bus.calls| && CallbackReady(s.bus.calls[own[at]], waiting))
       case _ => false)
  }

  predicate CallbackReady(c: Proc, waiting: bool) {
    c.Subscribe? && if waiting then c.spc.Removed? else c.spc.Installed?
  }

  function SubscribeTo(k: nat): Step
    requires k < N
  {
    StartSubscribe(TopicName(k), Some(k), Outside)
  }

  function Act(s: Sys, a: Action): Sys
    requires CanAct(s, a)
  {
    match a
    case CallStart => Sys(Apply(s.bus, SubscribeTo(0)), Starting([], |s.bus.calls|))
    case CallStop => s.(phase := Removing(if s.phase.Running? then s.phase.own else [], 0, false, true))
    case Other(step) => s.(bus := Apply(s.bus, step))
    case Advance =>
      (match s.phase
       case Starting(own, pid) =>
         if s.bus.calls[pid].spc.SubFailed? then s.(phase := Removing(own, 0, false, false))
         else if |own| + 1 == N then s.(phase := Running(own + [pid]))
         else Sys(Apply(s.bus, SubscribeTo(|own| + 1)), Starting(own + [pid], |s.bus.calls|))
       case Removing(own, at, waiting, stopping) =>
         if at == |own| then s.(phase := if stopping then Stopped else Fresh)
         else if waiting then s.(phase := Removing(own, at + 1, false, stopping))
         else Sys(Apply(s.bus, StartUnsubscribe(own[at], Outside)), Removing(own, at, true, stopping))
       case _ => s)
  }

  function Run(s: Sys, actions: seq<Action>): Option<Sys> {
    if actions == [] then Some(s)
    else
      var before := Run(s, actions[..|actions| - 1]);
      var last := actions[|actions| - 1];
      if before.Some? && CanAct(before.value, last) then Some(Act(before.value, last)) else None
  }

  ghost predicate Attainable(s: Sys) {
    exists size: int, actions: seq<Action> :: Run(Sys(New(size), Fresh), actions) == Some(s)
  }

  // ---------------------------------------------------------------- the bridge's books

  function Held(phase: Phase): seq<Pid> {
    match phase
    case Fresh => []
    case Starting(own, pid) => own + [pid]
    case Running(own) => own
    case Removing(own, _, _, _) => own
    case Stopped => []
  }

  predicate Gone(c: Proc) {
    c.Subscribe? && (c.spc.SubFailed? || c.spc.Removed?)
  }

  /** How far the call for binding `i` has come. */
  predicate Stage(phase: Phase, i: nat, pc: SubPC) {
    match phase
    case Starting(own, _) => if i < |own| then pc.Installed? else Installing(pc) || pc.SubFailed? || pc.Installed?
    case Running(_) => pc.Installed?
    case Removing(_, at, waiting, _) =>
      if i < at then pc.Removed?
      else if i == at && waiting then pc.UnsubLock? || pc.UnsubFilter? || pc.Removed?
      else pc.Installed?
    case _ => true
  }

  predicate HeldOk(calls: seq<Proc>, phase: Phase, i: nat)
    requires i < |Held(phase)| <= N
  {
    var p := Held(phase)[i];
    p < |calls| && calls[p].Subscribe? && calls[p].handler == Some(i) && calls[p].topic == TopicName(i)
    && Stage(phase, i, calls[p].spc)
  }

  predicate PhaseOk(phase: Phase) {
    && |Held(phase)| <= N
    && (phase.Running? ==> |phase.own| == N)
    && (phase.Removing? ==> phase.at <= |phase.own| && (phase.waiting ==> phase.at < |phase.own|))
  }

  ghost predicate Book(calls: seq<Proc>, phase: Phase) {
    && PhaseOk(phase)
    && (forall i :: 0 <= i < |Held(phase)| ==> HeldOk(calls, phase, i))
    && (forall p :: 0 <= p < |calls| ==> Accounted(calls[p], p, phase))
  }

  /** Every call made for the bridge is for the topic of its binding, and is one it still holds or is over. */
  ghost predicate Accounted(c: Proc, p: Pid, phase: Phase) {
    BridgeCall(c) ==> c.topic == TopicName(c.handler.value) && (p in Held(phase) || Gone(c))
  }

  /** What everyone else's step does to the calls of the bridge. */
  lemma OtherMoves(s: Bus, step: Step, p: Pid)
    requires OtherAllowed(s, step) && p < |Apply(s, step).calls| && BridgeCall(Apply(s, step).calls[p])
    ensures p < |s.calls| && BridgeCall(s.calls[p])
    ensures var c, c' := s.calls[p], Apply(s, step).calls[p];
      c' == c || (c'.topic == c.topic && c'.handler == c.handler && SubNext(c.spc, c'.spc) && !c.spc.Installed?)
  {
    if p < |s.calls| {
      StepSuccessor(s, step, p);
      if step.RunSubscribe? { RunnableCall(s, step); }
    } else {
      AddedCall(s, step);
    }
  }

  lemma RunnableCall(s: Bus, step: Step)
    requires Enabled(s, step) && step.RunSubscribe?
    ensures !s.calls[step.p].spc.Installed?
  {
  }

  lemma OtherKeepsHeld(s: Bus, phase: Phase, step: Step, i: nat)
    requires Book(s.calls, phase) && OtherAllowed(s, step) && i < |Held(phase)|
    ensures HeldOk(Apply(s, step).calls, phase, i)
  {
    assert HeldOk(s.calls, phase, i);
    StepSuccessor(s, step, Held(phase)[i]);
    OtherMoves(s, step, Held(phase)[i]);
  }

  lemma OtherKeepsBook(s: Bus, phase: Phase, step: Step)
    requires Book(s.calls, phase) && OtherAllowed(s, step)
    ensures Book(Apply(s, step).calls, phase)
  {
    forall i | 0 <= i < |Held(phase)|
      ensures HeldOk(Apply(s, step).calls, phase, i)
    {
      OtherKeepsHeld(s, phase, step, i);
    }
    forall p | 0 <= p < |Apply(s, step).calls|
      ensures Accounted(Apply(s, step).calls[p], p, phase)
    {
      if BridgeCall(Apply(s, step).calls[p]) {
        OtherMoves(s, step, p);
        assert Accounted(s.calls[p], p, phase);
      }
    }
  }

  /** The bridge holds exactly the installed handlers of its first bindings. */
  ghost predicate Settled(calls: seq<Proc>, own: seq<Pid>) {
    Book(calls, Removing(own, 0, false, false))
  }

  lemma SubscribeKeepsBook(s: Bus, own: seq<Pid>)
    requires Settled(s.calls, own) && |own| < N
    ensures Book(Apply(s, SubscribeTo(|own|)).calls, Starting(own, |s.calls|))
  {
    var s' := Apply(s, SubscribeTo(|own|));
    var phase := Starting(own, |s.calls|);
    forall i | 0 <= i < |Held(phase)|
      ensures HeldOk(s'.calls, phase, i)
    {
      if i < |own| { assert HeldOk(s.calls, Removing(own, 0, false, false), i); }
    }
    forall p | 0 <= p < |s'.calls|
      ensures Accounted(s'.calls[p], p, phase)
    {
      if p < |s.calls| {
        assert Accounted(s.calls[p], p, Removing(own, 0, false, false));
      } else {
        assert Held(phase)[|own|] == p;
      }
    }
  }

  lemma InstalledSettles(calls: seq<Proc>, own: seq<Pid>, pid: Pid)
    requires Book(calls, Starting(own, pid)) && pid < |calls| && calls[pid].Subscribe? && calls[pid].spc.Installed?
    ensures Settled(calls, own + [pid])
  {
    var before, after := Starting(own, pid), Removing(own + [pid], 0, false, false);
    forall i | 0 <= i < |Held(after)|
      ensures HeldOk(calls, after, i)
    {
      assert HeldOk(calls, before, i);
    }
    forall p | 0 <= p < |calls|
      ensures Accounted(calls[p], p, after)
    {
      assert Accounted(calls[p], p, before);
    }
  }

  lemma FailureSettles(calls: seq<Proc>, own: seq<Pid>, pid: Pid)
    requires Book(calls, Starting(own, pid)) && pid < |calls| && Gone(calls[pid])
    ensures Settled(calls, own)
  {
    var before, after := Starting(own, pid), Removing(own, 0, false, false);
    forall i | 0 <= i < |own|
      ensures HeldOk(calls, after, i)
    {
      assert HeldOk(calls, before, i);
    }
    forall p | 0 <= p < |calls|
      ensures Accounted(calls[p], p, after)
    {
      assert Accounted(calls[p], p, before);
    }
  }

  lemma SettledRuns(calls: seq<Proc>, own: seq<Pid>)
    requires |own| == N
    ensures Settled(calls, own) <==> Book(calls, Running(own))
  {
    assert forall i :: 0 <= i < N ==> (HeldOk(calls, Running(own), i) <==> HeldOk(calls, Removing(own, 0, false, false), i));
    assert forall p :: 0 <= p < |calls| ==>
      (Accounted(calls[p], p, Running(own)) <==> Accounted(calls[p], p, Removing(own, 0, false, false)));
  }

  lemma StopIsRollback(calls: seq<Proc>, own: seq<Pid>)
    requires Settled(calls, own)
    ensures Book(calls, Removing(own, 0, false, true))
  {
    var before, after := Removing(own, 0, false, false), Removing(own, 0, false, true);
    assert forall i :: 0 <= i < |own| ==> HeldOk(calls, before, i) ==> HeldOk(calls, after, i);
    assert forall p :: 0 <= p < |calls| ==> Accounted(calls[p], p, before) ==> Accounted(calls[p], p, after);
  }

  lemma UnsubscribeKeepsBook(s: Bus, own: seq<Pid>, at: nat, stopping: bool)
    requires Book(s.calls, Removing(own, at, false, stopping)) && at < |own|
    requires Enabled(s, StartUnsubscribe(own[at], Outside))
    ensures Book(Apply(s, StartUnsubscribe(own[at], Outside)).calls, Removing(own, at, true, stopping))
  {
    var before, after := Removing(own, at, false, stopping), Removing(own, at, true, stopping);
    var s' := Apply(s, StartUnsubscribe(own[at], Outside));
    assert HeldOk(s.calls, before, at);
    forall i | 0 <= i < |own|
      ensures HeldOk(s'.calls, after, i)
    {
      assert HeldOk(s.calls, before, i);
    }
    forall p | 0 <= p < |s'.calls|
      ensures Accounted(s'.calls[p], p, after)
    {
      assert Accounted(s.calls[p], p, before);
    }
  }

  lemma RemovedKeepsBook(calls: seq<Proc>, own: seq<Pid>, at: nat, stopping: bool)
    requires Book(calls, Removing(own, at, true, stopping)) && own[at] < |calls| && Gone(calls[own[at]])
    ensures Book(calls, Removing(own, at + 1, false, stopping))
  {
    var before, after := Removing(own, at, true, stopping), Removing(own, at + 1, false, stopping);
    forall i | 0 <= i < |own|
      ensures HeldOk(calls, after, i)
    {
      assert HeldOk(calls, before, i);
    }
    assert forall p :: 0 <= p < |calls| ==> Accounted(calls[p], p, before) ==> Accounted(calls[p], p, after);
  }

  lemma AllRemoved(calls: seq<Proc>, own: seq<Pid>, stopping: bool, phase: Phase)
    requires Book(calls, Removing(own, |own|, false, stopping)) && (phase == Fresh || phase == Stopped)
    ensures Book(calls, phase)
  {
    forall p | 0 <= p < |calls|
      ensures Accounted(calls[p], p, phase)
    {
      assert Accounted(calls[p], p, Removing(own, |own|, false, stopping));
      if p in own {
        var i :| 0 <= i < |own| && own[i] == p;
        assert HeldOk(calls, Removing(own, |own|, false, stopping), i);
      }
    }
  }

  lemma FreshSettles(calls: seq<Proc>)
    requires Book(calls, Fresh)
    ensures Settled(calls, [])
  {
    assert forall p :: 0 <= p < |calls| ==>
      Accounted(calls[p], p, Fresh) ==> Accounted(calls[p], p, Removing([], 0, false, false));
  }

  // ---------------------------------------------------------------- every step, every run

  ghost predicate Inv(s: Sys) { Reachable(s.bus) && Book(s.bus.calls, s.phase) }

  lemma StartAdvances(s: Sys)
    requires Inv(s) && s.phase.Starting? && CanAct(s, Advance)
    ensures Inv(Act(s, Advance))
  {
    var own, pid := s.phase.own, s.phase.pid;
    if s.bus.calls[pid].spc.SubFailed? {
      FailureSettles(s.bus.calls, own, pid);
    } else {
      InstalledSettles(s.bus.calls, own, pid);
      if |own| + 1 == N {
        SettledRuns(s.bus.calls, own + [pid]);
      } else {
        StepReachable(s.bus, SubscribeTo(|own| + 1));
        SubscribeKeepsBook(s.bus, own + [pid]);
      }
    }
  }

  lemma RemovalAdvances(s: Sys)
    requires Inv(s) && s.phase.Removing? && CanAct(s, Advance)
    ensures Inv(Act(s, Advance))
  {
    var own, at, stopping := s.phase.own, s.phase.at, s.phase.stopping;
    if at == |own| {
      AllRemoved(s.bus.calls, own, stopping, if stopping then Stopped else Fresh);
    } else if s.phase.waiting {
      RemovedKeepsBook(s.bus.calls, own, at, stopping);
    } else {
      StepReachable(s.bus, StartUnsubscribe(own[at], Outside));
      UnsubscribeKeepsBook(s.bus, own, at, stopping);
    }
  }

  lemma ActKeepsInv(s: Sys, a: Action)
    requires Inv(s) && CanAct(s, a)
    ensures Inv(Act(s, a))
  {
    match a
    case CallStart =>
      FreshSettles(s.bus.calls);
      StepReachable(s.bus, SubscribeTo(0));
      SubscribeKeepsBook(s.bus, []);
    case CallStop =>
      if s.phase == Fresh { FreshSettles(s.bus.calls); } else { SettledRuns(s.bus.calls, s.phase.own); }
      StopIsRollback(s.bus.calls, if s.phase.Running? then s.phase.own else []);
    case Other(step) =>
      StepReachable(s.bus, step);
      OtherKeepsBook(s.bus, s.phase, step);
    case Advance => if s.phase.Starting? { StartAdvances(s); } else { RemovalAdvances(s); }
  }

  lemma {:induction false} RunKeepsInv(s: Sys, actions: seq<Action>)
    requires Inv(s) && Run(s, actions).Some?
    ensures Inv(Run(s, actions).value)
  {
    if actions != [] {
      RunKeepsInv(s, actions[..|actions| - 1]);
      ActKeepsInv(Run(s, actions[..|actions| - 1]).value, actions[|actions| - 1]);
    }
  }

  lemma AttainableIsSound(s: Sys)
    requires Attainable(s)
    ensures Inv(s)
  {
    var size: int, actions: seq<Action> :| Run(Sys(New(size), Fresh), actions) == Some(s);
    assert Exec(New(size), []) == Some(New(size));
    RunKeepsInv(Sys(New(size), Fresh), actions);
  }
}
