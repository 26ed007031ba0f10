/** What each answer of Publish and Subscribe tells its caller, over every schedule (core/pkg/eventbus/bus.go). */
module BusAnswers {
  import opened BusModel
  import opened BusSafety
  import opened BusDelivery
  import opened BusHistory
  import opened BusTheorems
  import opened Options

  // ---------------------------------------------------------------- the answers against the state

  predicate PublishAnswerOk(topic: string, pc: PubPC, closed: bool) {
    match pc
    case PubEntry => true
    case PubLeave(r) => topic != "" && (r == Ok || r == ErrContext || (r == ErrClosed && closed))
    case PubReturned(r) =>
      if r == ErrInvalidTopic then topic == ""
      else topic != "" && (r == Ok || r == ErrContext || (r == ErrClosed && closed))
    case _ => topic != ""
  }

  predicate SubscribeAnswerOk(topic: string, handler: Option<nat>, pc: SubPC, closed: bool) {
    match pc
    case SubEntry => true
    case SubFailed(r) =>
      if topic == "" then r == ErrInvalidTopic
      else if handler == None then r == ErrInvalidHandler
      else r == ErrClosed && closed
    case _ => topic != "" && handler != None
  }

  predicate AnswerOk(c: Proc, closed: bool) {
    match c
    case Publish(topic, _, _, pc) => PublishAnswerOk(topic, pc, closed)
    case Subscribe(topic, handler, _, pc) => SubscribeAnswerOk(topic, handler, pc, closed)
  }

  ghost predicate Answers(s: Bus) {
    && (forall p :: 0 <= p < |s.calls| ==> AnswerOk(s.calls[p], s.closed))
    && (forall t :: 0 <= t < |s.ts| ==> |s.ts[t].queue| <= s.cap)
  }

  lemma PublishKeepsAnswer(s: Bus, p: Pid, branch: Branch)
    requires PublishReady(s, p, branch) && AnswerOk(s.calls[p], s.closed) && (s.done ==> s.closed)
    ensures AnswerOk(PublishMove(s, p, branch).call, s.closed)
    ensures var m := PublishMove(s, p, branch); m.change.Put? ==> |m.change.x.queue| <= s.cap
  {
  }

  lemma SubscribeKeepsAnswer(s: Bus, p: Pid)
    requires SubscribeReady(s, p) && AnswerOk(s.calls[p], s.closed)
    ensures AnswerOk(SubscribeMove(s, p).call, s.closed)
    ensures var m := SubscribeMove(s, p); m.change.Put? ==> m.change.x.queue == s.ts[m.change.t].queue
  {
  }

  lemma CommitKeepsAnswers(s: Bus, p: Pid, m: Move)
    requires Answers(s) && p < |s.calls| && AnswerOk(m.call, s.closed)
    requires m.change.Put? ==> m.change.t < |s.ts| && |m.change.x.queue| <= s.cap
    ensures Answers(Commit(s, p, m))
  {
  }

  lemma WorkerKeepsAnswers(s: Bus, t: Tid, budget: nat)
    requires Answers(s) && WorkerReady(s, t)
    ensures Answers(Apply(s, RunWorker(t, budget)))
  {
    assert |WorkerTurn(s, t, budget).x.queue| <= |s.ts[t].queue|;
  }

  lemma CloseKeepsAnswers(s: Bus, t: Tid)
    requires Answers(s) && CloseReady(s, t)
    ensures Answers(CloseStep(s, t))
  {
    var s' := CloseStep(s, t);
    assert s'.calls == s.calls && s'.cap == s.cap && (s.closed ==> s'.closed);
    forall u | 0 <= u < |s'.ts|
      ensures s'.ts[u].queue == s.ts[u].queue
    {
    }
  }

  lemma AwaitKeepsAnswers(s: Bus, w: Waiter, n: Nested)
    requires Answers(s) && CanCall(s, w)
    ensures Answers(Await(s, w, n))
  {
  }

  lemma ArrivalKeepsAnswers(s: Bus, step: Step)
    requires Answers(s) && Enabled(s, step)
    requires step.StartPublish? || step.StartSubscribe? || step.StartUnsubscribe? || step.StartClose?
    ensures Answers(Apply(s, step))
  {
    match step
    case StartPublish(_, _, w) => AwaitKeepsAnswers(s, w, OnPublish(|s.calls|));
    case StartSubscribe(_, _, w) => AwaitKeepsAnswers(s, w, OnSubscribe(|s.calls|));
    case StartUnsubscribe(p, w) => AwaitKeepsAnswers(s, w, OnUnsubscribe(p));
    case StartClose =>
  }

  lemma DoneMeansClosed(s: Bus)
    requires Good(s)
    ensures s.done ==> s.closed
  {
  }

  lemma StepKeepsAnswers(s: Bus, step: Step)
    requires Answers(s) && (s.done ==> s.closed) && Enabled(s, step)
    ensures Answers(Apply(s, step))
  {
    match step
    case RunPublish(p, branch) =>
      PublishKeepsAnswer(s, p, branch);
      CommitKeepsAnswers(s, p, PublishMove(s, p, branch));
    case RunSubscribe(p) =>
      SubscribeKeepsAnswer(s, p);
      CommitKeepsAnswers(s, p, SubscribeMove(s, p));
    case RunWorker(t, budget) => WorkerKeepsAnswers(s, t, budget);
    case RunClose(t) => CloseKeepsAnswers(s, t);
    case _ => ArrivalKeepsAnswers(s, step);
  }

  lemma {:induction false} ExecAnswers(size: int, schedule: seq<Step>)
    requires Exec(New(size), schedule).Some?
    ensures Answers(Exec(New(size), schedule).value)
  {
    if schedule != [] {
      var front := schedule[..|schedule| - 1];
      ExecAnswers(size, front);
      ExecIsGood(size, front);
      DoneMeansClosed(Exec(New(size), front).value);
      StepKeepsAnswers(Exec(New(size), front).value, schedule[|schedule| - 1]);
    }
  }

  // ---------------------------------------------------------------- moments of a call

  /** Just before step `k` of the schedule, call `p` stood at a program counter that satisfies `at`, and the step let
      it move on by `branch`. */
  ghost predicate Moved(size: int, schedule: seq<Step>, p: Pid, k: nat, branch: Branch, at: (Bus, PubPC) -> bool) {
    k < |schedule| && schedule[k] == RunPublish(p, branch) &&
    var before := Exec(New(size), schedule[..k]);
    before.Some? && p < |before.value.calls| && before.value.calls[p].Publish? && at(before.value, before.value.calls[p].ppc)
  }

  ghost predicate MovedOnce(size: int, schedule: seq<Step>, p: Pid, branch: Branch, at: (Bus, PubPC) -> bool) {
    exists k: nat :: Moved(size, schedule, p, k, branch, at)
  }

  ghost function Blocked(): (Bus, PubPC) -> bool { (s: Bus, pc: PubPC) => pc.PubBlocked? }

  /** The non-blocking send of a call meets a full queue. */
  ghost function Full(): (Bus, PubPC) -> bool {
    (s: Bus, pc: PubPC) => pc.PubTrySend? && pc.t < |s.ts| && |s.ts[pc.t].queue| == s.cap
  }

  /** The caller's context was cancelled while its Publish was blocked. */
  ghost predicate CancelledWhileBlocked(size: int, schedule: seq<Step>, p: Pid) {
    MovedOnce(size, schedule, p, Cancel, Blocked())
  }

  ghost predicate FoundFull(size: int, schedule: seq<Step>, p: Pid) {
    exists branch :: MovedOnce(size, schedule, p, branch, Full())
  }

  lemma MovedFront(size: int, schedule: seq<Step>, p: Pid, k: nat, branch: Branch, at: (Bus, PubPC) -> bool)
    requires schedule != [] && k < |schedule| - 1
    ensures Moved(size, schedule[..|schedule| - 1], p, k, branch, at) <==> Moved(size, schedule, p, k, branch, at)
  {
    assert schedule[..|schedule| - 1][..k] == schedule[..k];
  }

  lemma MovedOnceGrows(size: int, schedule: seq<Step>, p: Pid, branch: Branch, at: (Bus, PubPC) -> bool)
    requires schedule != []
    ensures var n := |schedule| - 1;
      MovedOnce(size, schedule, p, branch, at)
      <==> MovedOnce(size, schedule[..n], p, branch, at) || Moved(size, schedule, p, n, branch, at)
  {
    var n := |schedule| - 1;
    if MovedOnce(size, schedule, p, branch, at) {
      var k: nat :| Moved(size, schedule, p, k, branch, at);
      if k < n { MovedFront(size, schedule, p, k, branch, at); }
    }
    if MovedOnce(size, schedule[..n], p, branch, at) {
      var k: nat :| Moved(size, schedule[..n], p, k, branch, at);
      MovedFront(size, schedule, p, k, branch, at);
    }
  }

  lemma FoundFullGrows(size: int, schedule: seq<Step>, p: Pid)
    requires schedule != []
    ensures var n := |schedule| - 1;
      FoundFull(size, schedule[..n], p) || (exists branch :: Moved(size, schedule, p, n, branch, Full()))
      ==> FoundFull(size, schedule, p)
  {
    var n := |schedule| - 1;
    if FoundFull(size, schedule[..n], p) {
      var branch :| MovedOnce(size, schedule[..n], p, branch, Full());
      MovedOnceGrows(size, schedule, p, branch, Full());
    }
    if branch :| Moved(size, schedule, p, n, branch, Full()) {
      assert MovedOnce(size, schedule, p, branch, Full());
    }
  }

  predicate SaysContext(pc: PubPC) { pc == PubLeave(ErrContext) || pc == PubReturned(ErrContext) }

  /** What a call's program counter says about its past. */
  ghost predicate PastOk(size: int, schedule: seq<Step>, p: Pid, c: Proc) {
    c.Publish? ==>
      && (SaysContext(c.ppc) <==> CancelledWhileBlocked(size, schedule, p))
      && (c.ppc.PubBlocked? || SaysContext(c.ppc) ==> FoundFull(size, schedule, p))
  }

  lemma PublishMovesPast(s: Bus, p: Pid, branch: Branch)
    requires PublishReady(s, p, branch)
    ensures var pc, pc' := s.calls[p].ppc, PublishMove(s, p, branch).call.ppc;
      && (SaysContext(pc') <==> SaysContext(pc) || (pc.PubBlocked? && branch == Cancel))
      && (pc'.PubBlocked? && !pc.PubBlocked? ==> pc.PubTrySend? && |s.ts[pc.t].queue| >= s.cap)
      && (SaysContext(pc') && !SaysContext(pc) ==> pc.PubBlocked?)
  {
  }

  lemma CommitMoves(s: Bus, p: Pid, m: Move)
    requires p < |s.calls| && (m.change.Put? ==> m.change.t < |s.ts|)
    ensures Commit(s, p, m).calls == s.calls[p := m.call]
  {
  }

  /** The same, of the step that makes the move. */
  lemma MovesPast(s: Bus, p: Pid, branch: Branch)
    requires PublishReady(s, p, branch)
    requires Answers(s)
    ensures var s' := Apply(s, RunPublish(p, branch));
      && p < |s'.calls| && s.calls[p].Publish? && s'.calls[p].Publish?
      && var pc, pc' := s.calls[p].ppc, s'.calls[p].ppc;
         && (SaysContext(pc') <==> SaysContext(pc) || (pc.PubBlocked? && branch == Cancel))
         && (pc'.PubBlocked? && !pc.PubBlocked? ==> Full()(s, pc))
         && (SaysContext(pc') && !SaysContext(pc) ==> pc.PubBlocked?)
  {
    PublishMovesPast(s, p, branch);
    CommitMoves(s, p, PublishMove(s, p, branch));
  }

  /** The call that the last step of a schedule moved. */
  lemma MovedCallPast(size: int, schedule: seq<Step>, p: Pid, branch: Branch)
    requires schedule != [] && schedule[|schedule| - 1] == RunPublish(p, branch) && Exec(New(size), schedule).Some?
    requires var s := Exec(New(size), schedule[..|schedule| - 1]).value;
      p < |s.calls| && PastOk(size, schedule[..|schedule| - 1], p, s.calls[p])
    ensures p < |Exec(New(size), schedule).value.calls| && PastOk(size, schedule, p, Exec(New(size), schedule).value.calls[p])
  {
    var n := |schedule| - 1;
    var s := Exec(New(size), schedule[..n]).value;
    ExecAnswers(size, schedule[..n]);
    MovesPast(s, p, branch);
    MovedOnceGrows(size, schedule, p, Cancel, Blocked());
    FoundFullGrows(size, schedule, p);
    if Exec(New(size), schedule).value.calls[p].ppc.PubBlocked? && !s.calls[p].ppc.PubBlocked? {
      assert Moved(size, schedule, p, n, branch, Full());
    }
  }

  /** A call that the last step of a schedule left alone. */
  lemma OtherCallPast(size: int, schedule: seq<Step>, p: Pid)
    requires schedule != [] && Exec(New(size), schedule).Some?
    requires var s, s' := Exec(New(size), schedule[..|schedule| - 1]).value, Exec(New(size), schedule).value;
      p < |s.calls| && p < |s'.calls| && s'.calls[p].Publish?
      && s'.calls[p] == s.calls[p] && PastOk(size, schedule[..|schedule| - 1], p, s.calls[p])
    requires forall branch :: schedule[|schedule| - 1] != RunPublish(p, branch)
    ensures PastOk(size, schedule, p, Exec(New(size), schedule).value.calls[p])
  {
    MovedOnceGrows(size, schedule, p, Cancel, Blocked());
    FoundFullGrows(size, schedule, p);
  }

  /** A call that has not begun has no moments. */
  lemma {:induction false} NoMoments(size: int, schedule: seq<Step>, p: Pid)
    requires Exec(New(size), schedule).Some? && p >= |Exec(New(size), schedule).value.calls|
    ensures forall branch, at :: !MovedOnce(size, schedule, p, branch, at)
  {
    if schedule != [] {
      var n := |schedule| - 1;
      CallsNeverFewer(Exec(New(size), schedule[..n]).value, schedule[n]);
      NoMoments(size, schedule[..n], p);
      forall branch, at
        ensures !MovedOnce(size, schedule, p, branch, at)
      {
        MovedOnceGrows(size, schedule, p, branch, at);
      }
    }
  }

  lemma {:induction false} ExecPast(size: int, schedule: seq<Step>, p: Pid)
    requires Exec(New(size), schedule).Some? && p < |Exec(New(size), schedule).value.calls|
    ensures PastOk(size, schedule, p, Exec(New(size), schedule).value.calls[p])
  {
    if schedule != [] {
      var n := |schedule| - 1;
      var s, step := Exec(New(size), schedule[..n]).value, schedule[n];
      if p < |s.calls| {
        ExecPast(size, schedule[..n], p);
        StepSuccessor(s, step, p);
        if step.RunPublish? && step.p == p {
          MovedCallPast(size, schedule, p, step.branch);
        } else if s.calls[p].Publish? {
          OtherCallPast(size, schedule, p);
        }
      } else {
        AddedCall(s, step);
        NoMoments(size, schedule[..n], p);
        MovedOnceGrows(size, schedule, p, Cancel, Blocked());
      }
    }
  }

  // ---------------------------------------------------------------- what the answers mean

  /** What the answer of a Publish that has returned means, for each of its four answers.  "Invalid topic" is the empty
      topic and nothing else; "context" means that this call's context was cancelled while it was blocked, and nothing
      else; "closed" is said only of a closed bus; nil is said in all other cases, and only then. */
  lemma PublishAnswers(size: int, schedule: seq<Step>, p: Pid)
    requires Exec(New(size), schedule).Some?
    requires var s := Exec(New(size), schedule).value;
      p < |s.calls| && s.calls[p].Publish? && s.calls[p].ppc.PubReturned?
    ensures var s := Exec(New(size), schedule).value; var c := s.calls[p];
      && (c.ppc.r == ErrInvalidTopic <==> c.topic == "")
      && (c.ppc.r == ErrContext <==> CancelledWhileBlocked(size, schedule, p))
      && (c.ppc.r == ErrClosed ==> s.closed)
      && (c.ppc.r == Ok || c.ppc.r == ErrInvalidTopic || c.ppc.r == ErrContext || c.ppc.r == ErrClosed)
  {
    ExecAnswers(size, schedule);
    ExecPast(size, schedule, p);
    assert AnswerOk(Exec(New(size), schedule).value.calls[p], Exec(New(size), schedule).value.closed);
  }

  /** A Publish waits only after it has found its queue full: as long as there is room no cancelled context can stop
      it, and on an open bus with room it can answer nothing but nil. */
  lemma OnlyAFullQueueBlocks(size: int, schedule: seq<Step>, p: Pid)
    requires Exec(New(size), schedule).Some?
    requires var s := Exec(New(size), schedule).value; p < |s.calls| && s.calls[p].Publish?
    ensures var c := Exec(New(size), schedule).value.calls[p];
      c.ppc.PubBlocked? || c.ppc == PubReturned(ErrContext) ==> FoundFull(size, schedule, p)
    ensures var s := Exec(New(size), schedule).value; var c := s.calls[p];
      c.ppc.PubReturned? && c.topic != "" && !s.closed && !FoundFull(size, schedule, p) ==> c.ppc.r == Ok
  {
    ExecAnswers(size, schedule);
    ExecPast(size, schedule, p);
    assert AnswerOk(Exec(New(size), schedule).value.calls[p], Exec(New(size), schedule).value.closed);
  }

  lemma StepKeepsCap(s: Bus, step: Step)
    requires Enabled(s, step)
    ensures Apply(s, step).cap == s.cap
  {
  }

  lemma {:induction false} ExecKeepsCap(s: Bus, schedule: seq<Step>)
    requires Exec(s, schedule).Some?
    ensures Exec(s, schedule).value.cap == s.cap
  {
    if schedule != [] {
      var n := |schedule| - 1;
      ExecKeepsCap(s, schedule[..n]);
      StepKeepsCap(Exec(s, schedule[..n]).value, schedule[n]);
    }
  }

  /** A topic's buffer has the size that was asked for, or 64 when that was not positive, on every topic and for good; no
      queue ever holds more. */
  lemma QueuesAreBounded(size: int, schedule: seq<Step>, t: Tid)
    requires Exec(New(size), schedule).Some? && t < |Exec(New(size), schedule).value.ts|
    ensures var s := Exec(New(size), schedule).value;
      |s.ts[t].queue| <= s.cap == if size > 0 then size else 64
  {
    ExecAnswers(size, schedule);
    ExecKeepsCap(New(size), schedule);
  }

  predicate Subscribed(pc: SubPC) {
    pc.Installed? || pc.UnsubLock? || pc.UnsubFilter? || pc.Removed?
  }

  /** What a Subscribe that has returned answered: "invalid topic" for the empty topic, else "invalid handler" for a nil
      handler, else "closed" and only on a closed bus; it never succeeds for the first two. */
  lemma SubscribeAnswers(s: Bus, p: Pid)
    requires Reachable(s) && p < |s.calls| && s.calls[p].Subscribe?
    requires s.calls[p].spc.SubFailed? || Subscribed(s.calls[p].spc)
    ensures var c := s.calls[p];
      && (c.topic == "" <==> c.spc == SubFailed(ErrInvalidTopic))
      && (c.topic != "" && c.handler == None <==> c.spc == SubFailed(ErrInvalidHandler))
      && (c.topic != "" && c.handler != None <==> c.spc == SubFailed(ErrClosed) || Subscribed(c.spc))
      && (c.spc == SubFailed(ErrClosed) ==> s.closed)
  {
    var size: int, schedule: seq<Step> :| Exec(New(size), schedule) == Some(s);
    ExecAnswers(size, schedule);
    assert AnswerOk(s.calls[p], s.closed);
  }

  // ---------------------------------------------------------------- calls made after Close

  /** How a call made on a closed bus can stand. */
  predicate TurnedAway(c: Proc) {
    match c
    case Publish(topic, _, _, pc) => pc == PubEntry || pc == PubReturned(if topic == "" then ErrInvalidTopic else ErrClosed)
    case Subscribe(topic, handler, _, pc) =>
      pc == SubEntry || pc == SubFailed(if topic == "" then ErrInvalidTopic
                                        else if handler == None then ErrInvalidHandler else ErrClosed)
  }

  lemma StaysTurnedAway(s: Bus, step: Step, p: Pid)
    requires s.closed && Enabled(s, step) && p < |Apply(s, step).calls|
    requires p < |s.calls| ==> TurnedAway(s.calls[p])
    ensures TurnedAway(Apply(s, step).calls[p]) && Apply(s, step).closed
  {
    StepStaysClosed(s, step);
    if p < |s.calls| {
      match step
      case RunPublish(q, branch) => PublishTurnedAway(s, q, branch, p);
      case RunSubscribe(q) => SubscribeTurnedAway(s, q, p);
      case _ => StepSuccessor(s, step, p);
    } else {
      AddedCall(s, step);
    }
  }

  lemma PublishTurnedAway(s: Bus, q: Pid, branch: Branch, p: Pid)
    requires s.closed && PublishReady(s, q, branch) && p < |s.calls| && TurnedAway(s.calls[p])
    ensures TurnedAway(Commit(s, q, PublishMove(s, q, branch)).calls[p])
  {
    CommitMoves(s, q, PublishMove(s, q, branch));
  }

  lemma SubscribeTurnedAway(s: Bus, q: Pid, p: Pid)
    requires s.closed && SubscribeReady(s, q) && p < |s.calls| && TurnedAway(s.calls[p])
    ensures TurnedAway(Commit(s, q, SubscribeMove(s, q)).calls[p])
  {
    CommitMoves(s, q, SubscribeMove(s, q));
  }

  /** A call made once Close has set `closed` is turned away at its first check, for the first reason there is. */
  lemma {:induction false} CalledOnAClosedBus(s: Bus, schedule: seq<Step>, p: Pid)
    requires s.closed && Exec(s, schedule).Some? && |s.calls| <= p < |Exec(s, schedule).value.calls|
    ensures TurnedAway(Exec(s, schedule).value.calls[p])
  {
    StaysClosed(s, schedule);
    var n := |schedule| - 1;
    StaysClosed(s, schedule[..n]);
    var s1 := Exec(s, schedule[..n]).value;
    if p < |s1.calls| { CalledOnAClosedBus(s, schedule[..n], p); }
    StaysTurnedAway(s1, schedule[n], p);
  }

  lemma {:induction false} StaysClosed(s: Bus, schedule: seq<Step>)
    requires s.closed && Exec(s, schedule).Some?
    ensures Exec(s, schedule).value.closed
  {
    if schedule != [] {
      var n := |schedule| - 1;
      StaysClosed(s, schedule[..n]);
      StepStaysClosed(Exec(s, schedule[..n]).value, schedule[n]);
    }
  }

  lemma StepStaysClosed(s: Bus, step: Step)
    requires s.closed && Enabled(s, step)
    ensures Apply(s, step).closed
  {
  }
}
