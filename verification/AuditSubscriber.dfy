/**
 Start and Stop as they are written (core/pkg/auditsubscriber/subscriber.go): loops over the bindings and over the
 unsubscribe callbacks, with everyone else acting whenever the goroutine waits for the bus.
 */
module AuditSubscriber {
  import opened BusModel
  import opened AuditBridge
  import opened AuditTheorems
  import opened Options

  datatype StartResult = Started | ErrSubscribe | ErrStopped | ErrAlreadyStarted | StillWaiting

  datatype StopResult = Done | WaitingStill

  /** The steps of everyone else, taken in order; None when one of them is not possible. */
  function Play(s: Sys, script: seq<Step>): Option<Sys>
    decreases |script|
  {
    if script == [] then Some(s)
    else if OtherAllowed(s.bus, script[0]) then Play(Act(s, Other(script[0])), script[1..])
    else None
  }

  lemma RunSnoc(s: Sys, actions: seq<Action>, m: Sys, a: Action)
    requires Run(s, actions) == Some(m) && CanAct(m, a)
    ensures Run(s, actions + [a]) == Some(Act(m, a))
  {
    assert (actions + [a])[..|actions|] == actions;
  }

  lemma {:induction false} PlayIsRun(s: Sys, actions: seq<Action>, m: Sys, script: seq<Step>) returns (longer: seq<Action>)
    requires Run(s, actions) == Some(m) && Play(m, script).Some?
    ensures Run(s, longer) == Play(m, script)
    ensures Play(m, script).value.phase == m.phase
    decreases |script|
  {
    if script == [] {
      longer := actions;
    } else {
      var a := Other(script[0]);
      RunSnoc(s, actions, m, a);
      longer := PlayIsRun(s, actions + [a], Act(m, a), script[1..]);
    }
  }

  class Subscriber {
    /** What the others do while the goroutine waits for the n-th time.  A script that cannot be played, or that ends
        before the awaited call has returned, leaves the goroutine waiting. */
    const others: nat -> seq<Step>
    var waits: nat
    var bus: Bus
    var phase: Phase

    ghost function View(): Sys
      reads this
    {
      Sys(bus, phase)
    }

    ghost predicate Valid()
      reads this
    {
      Inv(View())
    }

    constructor (bufferSize: int, others: nat -> seq<Step>)
      ensures Valid() && View() == Sys(New(bufferSize), Fresh)
    {
      this.others := others;
      waits, bus, phase := 0, New(bufferSize), Fresh;
      new;
      assert Exec(New(bufferSize), []) == Some(bus);
    }

    /** A step of the bridge's own goroutine. */
    method Take(a: Action, ghost start: Sys, ghost trace: seq<Action>) returns (ghost longer: seq<Action>)
      requires Valid() && CanAct(View(), a) && Run(start, trace) == Some(View())
      modifies this`bus, this`phase
      ensures Valid() && View() == Act(old(View()), a) && Run(start, longer) == Some(View())
    {
      RunSnoc(start, trace, View(), a);
      ActKeepsInv(View(), a);
      longer := trace + [a];
      var s := Act(Sys(bus, phase), a);
      bus, phase := s.bus, s.phase;
    }

    /** The goroutine waits while the others act. */
    method Wait(ghost start: Sys, ghost trace: seq<Action>) returns (ghost longer: seq<Action>)
      requires Valid() && Run(start, trace) == Some(View())
      modifies this`bus, this`waits
      ensures Valid() && phase == old(phase) && Run(start, longer) == Some(View())
    {
      longer := trace;
      var after := Play(Sys(bus, phase), others(waits));
      waits := waits + 1;
      if after.Some? {
        longer := PlayIsRun(start, trace, View(), others(old(waits)));
        PlayKeepsInv(View(), others(old(waits)));
        bus := after.value.bus;
      }
    }

    /** One unsubscribe callback: the goroutine starts it and waits for it. */
    method RunCallback(ghost start: Sys, ghost before: seq<Action>) returns (returned: bool, ghost trace: seq<Action>)
      requires Valid() && Run(start, before) == Some(View())
      requires phase.Removing? && !phase.waiting && phase.at < |phase.own|
      modifies this
      ensures Valid() && Run(start, trace) == Some(View())
      ensures phase == Removing(old(phase.own), if returned then old(phase.at) + 1 else old(phase.at), !returned,
                                old(phase.stopping))
    {
      CallbackIsReady(View());
      trace := Take(Advance, start, before);
      trace := Wait(start, trace);
      returned := CanAct(Sys(bus, phase), Advance);
      if returned {
        trace := Take(Advance, start, trace);
      }
    }

    /** The unsubscribe callbacks one after the other: the rollback of Start, and Stop. */
    method RunCallbacks(ghost start: Sys, ghost before: seq<Action>) returns (finished: bool, ghost trace: seq<Action>)
      requires Valid() && Run(start, before) == Some(View()) && phase.Removing? && phase.at == 0 && !phase.waiting
      modifies this
      ensures Valid() && Run(start, trace) == Some(View())
      ensures finished ==> phase == if old(phase.stopping) then Stopped else Fresh
      ensures !finished ==> phase.Removing? && phase.stopping == old(phase.stopping)
    {
      trace := before;
      while phase.at < |phase.own|
        invariant Valid() && Run(start, trace) == Some(View())
        invariant phase.Removing? && !phase.waiting && phase.own == old(phase.own) && phase.stopping == old(phase.stopping)
        decreases |phase.own| - phase.at
      {
        var returned;
        returned, trace := RunCallback(start, trace);
        if !returned {
          return false, trace;
        }
      }
      trace := Take(Advance, start, trace);
      finished := true;
    }

    method Start() returns (r: StartResult, ghost trace: seq<Action>)
      requires Valid() && (phase == Fresh || phase.Running? || phase == Stopped)
      modifies this
      ensures Valid() && Run(old(View()), trace) == Some(View())
      ensures r == ErrStopped <==> old(phase) == Stopped
      ensures r == ErrAlreadyStarted <==> old(phase.Running?)
      ensures r == ErrStopped || r == ErrAlreadyStarted ==> View() == old(View())
      ensures r == Started ==> phase.Running?
      ensures r == ErrSubscribe ==> phase == Fresh
      ensures r == StillWaiting ==> phase.Starting? || (phase.Removing? && !phase.stopping)
    {
      ghost var start := View();
      trace := [];
      if phase == Stopped {
        return ErrStopped, trace;
      }
      if phase.Running? {
        return ErrAlreadyStarted, trace;
      }
      trace := Take(CallStart, start, trace);
      while true
        invariant Valid() && Run(start, trace) == Some(View()) && phase.Starting?
        decreases N - |phase.own|
      {
        trace := Wait(start, trace);
        SubscribeIsOurs(View());
        var c := bus.calls[phase.pid];
        if c.spc.SubFailed? {
          trace := Take(Advance, start, trace);
          var finished;
          finished, trace := RunCallbacks(start, trace);
          return if finished then ErrSubscribe else StillWaiting, trace;
        }
        if !c.spc.Installed? {
          return StillWaiting, trace;
        }
        trace := Take(Advance, start, trace);
        if phase.Running? {
          return Started, trace;
        }
      }
    }

    method Stop() returns (r: StopResult, ghost trace: seq<Action>)
      requires Valid() && (phase == Fresh || phase.Running? || phase == Stopped)
      modifies this
      ensures Valid() && Run(old(View()), trace) == Some(View())
      ensures old(phase) == Stopped ==> r == Done && View() == old(View())
      ensures r == Done ==> phase == Stopped
      ensures StopCalled(phase)
    {
      ghost var start := View();
      trace := [];
      if phase == Stopped {
        return Done, trace;
      }
      trace := Take(CallStop, start, trace);
      var finished;
      finished, trace := RunCallbacks(start, trace);
      r := if finished then Done else WaitingStill;
    }
  }

  lemma {:induction false} PlayKeepsInv(s: Sys, script: seq<Step>)
    requires Inv(s) && Play(s, script).Some?
    ensures Inv(Play(s, script).value) && Play(s, script).value.phase == s.phase
    decreases |script|
  {
    if script != [] {
      ActKeepsInv(s, Other(script[0]));
      PlayKeepsInv(Act(s, Other(script[0])), script[1..]);
    }
  }

  /** The callback that comes next is one that can be run: its registration is installed. */
  lemma CallbackIsReady(s: Sys)
    requires Inv(s) && s.phase.Removing? && !s.phase.waiting
    ensures CanAct(s, Advance)
  {
    if s.phase.at < |s.phase.own| { assert HeldOk(s.bus.calls, s.phase, s.phase.at); }
  }

  lemma SubscribeIsOurs(s: Sys)
    requires Inv(s) && s.phase.Starting?
    ensures s.phase.pid < |s.bus.calls| && s.bus.calls[s.phase.pid].Subscribe? && |s.phase.own| < N
  {
    assert Held(s.phase)[|s.phase.own|] == s.phase.pid;
    assert HeldOk(s.bus.calls, s.phase, |s.phase.own|);
  }
}
