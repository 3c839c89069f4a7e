/**
 The end of a session that create() sleeps through. When curl returns, the session thread sets the paused flag without
 signalling not-empty and waits for the flow timer thread, which runs on until a stop is requested. A create() that
 already sleeps is woken only by a block that is still to be queued.
*/
module HttpSrcUnreported {
  import opened Bytes
  import opened HttpSrcThreads
  import opened HttpSrcSafety
  import opened HttpSrcWakeups
  import opened HttpSrcTheorems

  /** The session is over and waits for the timer, nobody has asked for a stop, create() sleeps. */
  predicate Unreported(s: State) {
    s.session.pc == Ended(EndJoin) && s.flags.stop.Off? && s.stream == Wait(WaitAsleep)
  }

  /** Bytes that create() could still push. */
  predicate Undelivered(s: State) {
    s.store.queue != [] || s.store.curr != [] || s.timer.block != []
  }

  // ------------------------------------------------------- two more invariants

  predicate Sleeping(pc: StreamPc) { pc.Wait? && (pc.wait.WaitFallAsleep? || pc.wait.WaitAsleep?) }

  /** Whoever is about to signal a sleeping create() has queued a block. */
  predicate SignalMeansData(s: State) {
    Sleeping(s.stream) && (WillSignal(s.session.pc) || WillSignal(s.timer.pc)) ==> s.store.queue != []
  }

  predicate Over(pc: ProducerPc) { pc.Ended? || pc.Finished? }

  /** A session that is over has set the paused flag, or found the stop flag up. */
  predicate OverIsPaused(s: State) {
    Over(s.session.pc) ==> s.flags.paused.On? || s.flags.stop.On?
  }

  lemma {:induction false} ReadySignals(s: State, t: Thread)
    requires SignalMeansData(s) && Producing(t) && Prod(s, t).pc.Ready?
    ensures SignalMeansData(StepReady(s, t, Prod(s, t).pc.at))
  {
    ReadyCases(Prod(s, t).pc.at);
  }

  lemma StreamSignals(s: State)
    requires Locks(s) && SignalMeansData(s)
    ensures SignalMeansData(StepStream(s))
  {
    hide FlowOk, NotFullOk;
  }

  lemma {:induction false} ShallowSignals(s: State, t: Thread)
    requires SignalMeansData(s) && Producing(t) && Shallow(Prod(s, t).pc)
    ensures SignalMeansData(StepProducer(s, t))
  {
    hide StepReady, StepEnded;
    ProducerCases(Prod(s, t).pc);
  }

  lemma {:induction false} EndedSignals(s: State)
    requires SignalMeansData(s) && s.session.pc.Ended?
    ensures SignalMeansData(StepEnded(s, s.session.pc.stage))
  {
    EndCases(s.session.pc.stage);
  }

  lemma ProducerSignals(s: State, t: Thread)
    requires Inv(s) && SignalMeansData(s) && Producing(t)
    ensures SignalMeansData(StepProducer(s, t))
  {
    hide SignalMeansData, StepReady, StepEnded;
    if Prod(s, t).pc.Ready? {
      ReadySignals(s, t);
    } else if Prod(s, t).pc.Ended? {
      OnlySessionEnds(s, t);
      EndedSignals(s);
    } else {
      ShallowSignals(s, t);
    }
  }

  lemma {:induction false} EnvironmentSignals(s: State, a: Action)
    requires SignalMeansData(s) && !a.Step?
    ensures SignalMeansData(Next(s, a))
  {
    ActionCases(a);
  }

  lemma StopperSignals(s: State)
    requires SignalMeansData(s)
    ensures SignalMeansData(StepStopper(s))
  {
  }

  lemma NextSignals(s: State, a: Action)
    requires Inv(s) && SignalMeansData(s)
    ensures SignalMeansData(Next(s, a))
  {
    hide SignalMeansData, StepProducer, StepStream, StepStopper, Blocks, Phases, Conserved, Drained;
    match a
    case Step(t) =>
      match t {
        case Stream => StreamSignals(s);
        case Stopper => StopperSignals(s);
        case _ => ProducerSignals(s, t);
      }
    case _ => EnvironmentSignals(s, a);
  }

  lemma FlagsStayUp(s: State, a: Action)
    ensures s.flags.paused.On? ==> Next(s, a).flags.paused.On?
    ensures s.flags.stop.On? ==> Next(s, a).flags.stop.On?
  {
  }

  /** Only curl's return ends the session. */
  lemma StepDoesNotEnd(s: State, t: Thread)
    requires !Over(s.session.pc)
    ensures !Over(Next(s, Step(t)).session.pc)
  {
  }

  lemma {:induction false} NextPauses(s: State, a: Action)
    requires OverIsPaused(s)
    ensures OverIsPaused(Next(s, a))
  {
    FlagsStayUp(s, a);
    if !Over(s.session.pc) {
      if a.Step? {
        hide Next;
        StepDoesNotEnd(s, a.thread);
      } else {
        ActionCases(a);
      }
    }
  }

  lemma {:induction false} RunSignals(s: State, schedule: seq<Action>)
    requires Inv(s) && SignalMeansData(s) && OverIsPaused(s)
    ensures SignalMeansData(Run(s, schedule)) && OverIsPaused(Run(s, schedule))
    decreases |schedule|
  {
    hide Inv, SignalMeansData, OverIsPaused, Next;
    if schedule != [] {
      NextKeeps(s, schedule[0]);
      NextSignals(s, schedule[0]);
      NextPauses(s, schedule[0]);
      RunSignals(Next(s, schedule[0]), schedule[1..]);
    }
  }

  // ---------------------------------------------------------- nothing is left

  /** Neither a stop nor a wait that returns unasked. */
  predicate CalmAction(a: Action) { !a.CallStop? && !a.Unlock? && !a.SpuriousStream? }

  ghost predicate Calm(more: seq<Action>) { forall i :: 0 <= i < |more| ==> CalmAction(more[i]) }

  predicate Hangs(s: State) { Unreported(s) && !Undelivered(s) && !WillSignal(s.timer.pc) }

  lemma TimerHangs(s: State)
    requires Inv(s) && Hangs(s)
    ensures Hangs(StepProducer(s, Timer))
  {
    hide Locks, Conserved, Drained, Sizes;
    ProducerCases(s.timer.pc);
  }

  lemma NextHangs(s: State, a: Action)
    requires Inv(s) && Hangs(s) && CalmAction(a)
    ensures Hangs(Next(s, a))
  {
    hide Locks, Conserved, Drained, Sizes, StepReady;
    if a == Step(Timer) {
      TimerHangs(s);
    } else {
      ActionCases(a);
    }
  }

  lemma {:induction false} StaysAsleep(s: State, more: seq<Action>)
    requires Inv(s) && Hangs(s) && Calm(more)
    ensures Run(s, more).stream == Wait(WaitAsleep)
    decreases |more|
  {
    hide Inv, Next;
    if more != [] {
      NextKeeps(s, more[0]);
      NextHangs(s, more[0]);
      StaysAsleep(Next(s, more[0]), more[1..]);
    }
  }

  // --------------------------------------------------------- something is left

  /** How far the timer is from its signal, once the session is over. */
  function Distance(pc: ProducerPc): nat {
    match pc
    case Leave => 19
    case Outside => 18
    case WantFlow => 17
    case Entered => 16
    case Ready(at) =>
      (match at
       case GiveNotEmpty => 20
       case GiveQueue => 20
       case Woken => 15
       case GiveNotFull => 14
       case CheckStop => 13
       case WantQueue => 12
       case CheckRoom => 11
       case WantNotEmpty => 3
       case GiveQueueThenSignal => 2
       case _ => 1)
    case _ => 0
  }

  /** What every run establishes, and a create() that sleeps through the end. */
  predicate Resting(s: State) { Inv(s) && Awake(s) && HandedOver(s) && SignalMeansData(s) && Unreported(s) && s.flags.paused.On? }

  function NextMove(s: State): Action { if s.timer.pc.Outside? then Expire else Step(Timer) }

  /** Where the timer can be. */
  predicate TimerMoves(pc: ProducerPc) {
    || pc.Outside? || pc.WantFlow? || pc.Entered? || pc.Leave?
    || (pc.Ready? && (pc.at.WantQueue? || pc.at.CheckRoom? || pc.at.Woken? || pc.at.GiveNotFull? || pc.at.CheckStop?
                      || pc.at.GiveNotEmpty? || pc.at.GiveQueue?))
  }

  lemma TimerIsThere(s: State)
    requires Resting(s)
    ensures WillSignal(s.timer.pc) || (s.store.queue == [] && TimerMoves(s.timer.pc))
  {
    hide Locks, Conserved, Drained, HandedOver;
  }

  /** Everybody else is out of the way. */
  lemma MutexesAreFree(s: State)
    requires Resting(s)
    ensures !FlowAt(s.timer.pc) ==> s.mutexes.flow.Free?
    ensures !QueueAt(s.timer.pc) ==> s.mutexes.queue.Free?
    ensures !NotFullAt(s.timer.pc) ==> s.mutexes.notFull.Free?
    ensures !NotEmptyAt(s.timer.pc) ==> s.mutexes.notEmpty.Free?
  {
    hide Blocks, Conserved, Drained, Awake, HandedOver;
  }

  lemma MoveStaysUnreported(s: State)
    requires Resting(s)
    ensures var s' := Next(s, NextMove(s));
      if s.timer.pc == Ready(SignalNotEmpty) then s'.stream == Wait(WaitWoken) && s'.timer.pc == Ready(GiveNotEmpty)
      else Unreported(s')
  {
    hide Locks, Blocks, Conserved, Drained, Awake, HandedOver;
  }

  lemma SignalGetsCloser(s: State)
    requires Resting(s) && WillSignal(s.timer.pc) && s.timer.pc != Ready(SignalNotEmpty)
    ensures var s' := Next(s, NextMove(s)); Undelivered(s') && Distance(s'.timer.pc) < Distance(s.timer.pc)
  {
    MutexesAreFree(s);
    hide Locks, Blocks, Conserved, Drained, Awake, HandedOver;
  }

  lemma MoveGetsCloser(s: State)
    requires Resting(s) && Undelivered(s) && s.store.queue == [] && TimerMoves(s.timer.pc)
    ensures var s' := Next(s, NextMove(s)); Undelivered(s') && Distance(s'.timer.pc) < Distance(s.timer.pc)
  {
    MutexesAreFree(s);
    NothingQueued(s);
    hide Locks, Conserved, Drained, Awake, HandedOver, Sizes;
  }

  lemma NothingQueued(s: State)
    requires Inv(s) && s.store.queue == []
    ensures s.store.queuedBytes == 0
  {
    hide Locks, Conserved, Drained, Phases;
  }

  /** The timer has signalled: create() wakes up and finds the paused flag. */
  lemma WokenFindsTheEnd(s: State) returns (more: seq<Action>)
    requires s.stream == Wait(WaitWoken) && s.timer.pc == Ready(GiveNotEmpty) && s.flags.paused.On?
    ensures Calm(more) && Run(s, more).stream.Eos?
  {
    var s1 := Next(s, Step(Timer));
    assert s1.mutexes.notEmpty.Free? && s1.stream == s.stream && s1.flags == s.flags;
    var s2 := Next(s1, Step(Stream));
    assert s2.stream == Wait(WaitGiveNotEmpty) && s2.flags == s.flags;
    var s3 := Next(s2, Step(Stream));
    assert s3.stream == Wait(WaitRecheck) && s3.flags == s.flags;
    var s4 := Next(s3, Step(Stream));
    assert s4.stream == Eos(EosStart);
    hide Next;
    var last, three, two := [Step(Stream)], [Step(Stream), Step(Stream), Step(Stream)], [Step(Stream), Step(Stream)];
    more := [Step(Timer), Step(Stream), Step(Stream), Step(Stream)];
    assert more[1..] == three && three[1..] == two && two[1..] == last && last[1..] == [];
    assert Run(s, more) == Run(s1, three) == Run(s2, two) == Run(s3, last) == Run(s4, []) == s4;
  }

  lemma NextRests(s: State, a: Action)
    requires Resting(s) && Unreported(Next(s, a)) && CalmAction(a)
    ensures Resting(Next(s, a))
  {
    NextKeeps(s, a);
    NextStaysAwake(s, a);
    NextSignals(s, a);
    FlagsStayUp(s, a);
    hide Inv, Awake, HandedOver, SignalMeansData, Next;
  }

  lemma {:induction false} ReachesTheEnd(s: State) returns (more: seq<Action>)
    requires Resting(s) && Undelivered(s)
    ensures Calm(more) && Run(s, more).stream.Eos?
    decreases Distance(s.timer.pc)
  {
    hide Inv, Awake, HandedOver, SignalMeansData, Next, Undelivered, Distance;
    var a := NextMove(s);
    MoveStaysUnreported(s);
    var rest;
    if s.timer.pc == Ready(SignalNotEmpty) {
      FlagsStayUp(s, a);
      rest := WokenFindsTheEnd(Next(s, a));
    } else {
      TimerIsThere(s);
      if WillSignal(s.timer.pc) {
        SignalGetsCloser(s);
      } else {
        MoveGetsCloser(s);
      }
      NextRests(s, a);
      rest := ReachesTheEnd(Next(s, a));
    }
    more := [a] + rest;
    assert more[1..] == rest;
  }

  // ----------------------------------------------------------------- theorem

  /** What has been received and not pushed is in the queue, in the timer's hands or in the current block. */
  lemma UndeliveredExactly(s: State)
    requires Inv(s) && Unreported(s)
    ensures s.history.delivered != s.history.input <==> Undelivered(s)
  {
    hide Locks, Drained, Flatten;
    var h, q := s.history, s.store;
    assert h.dropped == 0 && h.disordered.Off? && h.refused.Off?;
    assert s.session.data[s.session.off..] == [] && h.accepted == h.input;
    assert InTransit(q, s.session.block, s.timer.block) == Flatten(q.queue) + s.timer.block + q.curr;
    QueueHasBytes(q, s.blockSize);
  }

  lemma QueueHasBytes(q: Store, blockSize: nat)
    requires Sizes(q, blockSize)
    ensures Flatten(q.queue) == [] <==> q.queue == []
  {
    if q.queue != [] {
      assert Flatten(q.queue) == q.queue[0] + Flatten(q.queue[1..]);
    }
  }

  lemma InitSignals(blockSize: nat)
    ensures SignalMeansData(Init(blockSize)) && OverIsPaused(Init(blockSize))
  {
  }

  /** After every schedule, when the session is over and waits for the timer, no stop is requested and create() sleeps:
      create() can still leave its loop, without being rescued by a stop or a wait that returns unasked, if and only if
      some received byte is undelivered; if none is, it sleeps through whatever else happens. */
  lemma EndIsReportedExactly(blockSize: nat, schedule: seq<Action>)
    requires 0 < blockSize
    ensures
      var s := Run(Init(blockSize), schedule);
      Unreported(s) ==>
        && (s.history.delivered != s.history.input <==> exists more: seq<Action> :: Calm(more) && Run(s, more).stream.Eos?)
        && (s.history.delivered != s.history.input <==> Undelivered(s))
        && (s.history.delivered == s.history.input ==>
              forall more: seq<Action> :: Calm(more) ==> Run(s, more).stream == Wait(WaitAsleep))
  {
    hide Run, Inv, Awake, HandedOver;
    EveryRun(blockSize, schedule);
    InitInv(blockSize);
    InitSignals(blockSize);
    RunSignals(Init(blockSize), schedule);
    var s := Run(Init(blockSize), schedule);
    if Unreported(s) {
      UndeliveredExactly(s);
      if Undelivered(s) {
        var more := ReachesTheEnd(s);
      } else {
        forall more: seq<Action> | Calm(more) ensures Run(s, more).stream == Wait(WaitAsleep) {
          StaysAsleep(s, more);
        }
      }
    }
  }
}
