/**
 When create() can finish at the end of the stream. It raises the stop flag while it holds the not-full mutex but no
 longer the queue mutex, and signals a sleeping producer. A producer that found the queue full just before is not asleep
 yet and will be missed: create() then waits for a mutex that producer holds.
*/
module HttpSrcShutdown {
  import opened Bytes
  import opened HttpSrcThreads
  import opened HttpSrcSafety
  import opened HttpSrcWakeups
  import opened HttpSrcTheorems

  /** create() has raised the flag and still holds the not-full mutex. */
  predicate AtSignal(pc: StreamPc) { pc.Eos? && (pc.eos.EosSignal? || pc.eos.EosGiveNotFull?) }

  // ------------------------------------------------- who was late stays late

  /** A producer noted as late is still in front of the mutex that create() holds. */
  predicate LateWaits(s: State) {
    AtSignal(s.stream) && s.history.lateSleeper.On? ==> Late(s.session.pc) || Late(s.timer.pc)
  }

  lemma ReadyLateWaits(s: State, t: Thread)
    requires Locks(s) && LateWaits(s) && Producing(t) && Prod(s, t).pc.Ready?
    ensures LateWaits(StepReady(s, t, Prod(s, t).pc.at))
  {
    hide FlowOk, QueueOk, NotEmptyOk;
    if Prod(s, t).pc.at.WantNotFull? && AtSignal(s.stream) {
      assert s.mutexes.notFull.ByStream?;
    }
  }

  lemma StreamLateWaits(s: State)
    requires Locks(s) && LateWaits(s)
    ensures LateWaits(StepStream(s))
  {
    hide FlowOk, QueueOk, NotEmptyOk;
  }

  lemma NextLateWaits(s: State, a: Action)
    requires Inv(s) && LateWaits(s)
    ensures LateWaits(Next(s, a))
  {
    hide StepReady, StepEos, StepTake, StepWait, Blocks, Phases, Conserved, Drained;
    match a
    case Step(t) =>
      if t.Stream? {
        StreamLateWaits(s);
      } else if Producing(t) && Prod(s, t).pc.Ready? {
        ReadyLateWaits(s, t);
      }
    case _ =>
  }

  lemma {:induction false} RunLateWaits(s: State, schedule: seq<Action>)
    requires Inv(s) && LateWaits(s)
    ensures LateWaits(Run(s, schedule))
    decreases |schedule|
  {
    hide Inv, LateWaits, Next;
    if schedule != [] {
      NextKeeps(s, schedule[0]);
      NextLateWaits(s, schedule[0]);
      RunLateWaits(Next(s, schedule[0]), schedule[1..]);
    }
  }

  // --------------------------------------------------------- steps run out

  /** How far a producer is from the end, once the stop flag is up. */
  function ReadyWork(at: ReadyPc): nat {
    match at
    case WantQueue => 20
    case CheckRoom => 19
    case WantNotFull => 18
    case GiveQueueThenSleep => 17
    case FallAsleep => 16
    case Asleep => 15
    case Woken => 14
    case GiveNotFull => 13
    case CheckStop => 12
    case Refused => 11
    case WantNotEmpty => 10
    case GiveQueueThenSignal => 9
    case SignalNotEmpty => 8
    case GiveNotEmpty => 7
    case GiveQueue => 6
  }

  function EndWork(stage: EndPc): nat {
    match stage
    case EndWantFlow => 8
    case EndGiveFlow => 7
    case EndJoin => 6
    case EndWantQueue => 5
    case EndWantNotEmpty => 4
    case EndGiveQueue => 3
    case EndSignal => 2
    case EndGiveNotEmpty => 1
  }

  function ProducerWork(pc: ProducerPc, left: nat): nat {
    match pc
    case WantFlow => 30 * left + 32
    case Entered => 30 * left + 31
    case Ready(at) => 30 * left + 4 + ReadyWork(at)
    case Reblock => 30 * left + 3
    case Leave => 2
    case Outside => 1
    case Ended(stage) => EndWork(stage)
    case Finished => 0
  }

  function EosWork(at: EosPc): nat {
    match at
    case EosStart => 14
    case EosWantQueue => 13
    case EosWantNotFull => 12
    case EosGiveQueue => 11
    case EosSetStop => 10
    case EosSignal => 9
    case EosGiveNotFull => 8
    case EosWantFlow => 7
    case EosPushCurrent => 6
    case EosGiveFlowPushed => 5
    case EosGiveFlow => 5
    case EosWantQueueAgain => 4
    case EosPushSole => 3
    case EosGiveQueueAgain => 2
    case EosDone => 0
  }

  function StopWork(pc: StopPc): nat {
    match pc
    case NotCalled => 6
    case StopWantQueue => 5
    case StopWantNotFull => 4
    case StopGiveQueue => 3
    case StopSignal => 2
    case StopGiveNotFull => 1
    case StopJoin => 0
  }

  function Left(p: Producer): nat { if p.off <= |p.data| then |p.data| - p.off else 0 }

  function WorkOf(p: Producer): nat { ProducerWork(p.pc, Left(p)) }

  function StreamWork(pc: StreamPc): nat { if pc.Eos? then EosWork(pc.eos) else 0 }

  function Work(s: State): nat {
    WorkOf(s.session) + WorkOf(s.timer) + StreamWork(s.stream) + StopWork(s.stopper)
  }

  lemma WakingWorks(s: State)
    ensures Work(WakeProducer(s)) <= Work(s)
  {
  }

  lemma CheckRoomWorks(s: State, t: Thread)
    requires Producing(t) && Prod(s, t).pc == Ready(CheckRoom) && s.flags.stop.On? && s.stream.Eos?
    ensures Work(StepReady(s, t, CheckRoom)) < Work(s)
  {
    hide StreamWork, StopWork;
  }

  lemma WaitingWorks(s: State, t: Thread)
    requires Producing(t) && Prod(s, t).pc.Ready? && BeforeQueued(Prod(s, t).pc.at) && s.flags.stop.On?
    ensures var s' := StepReady(s, t, Prod(s, t).pc.at); s' == s || Work(s') < Work(s)
  {
    hide StreamWork, StopWork, Enqueue, Drop, WakeStream;
    ReadyCases(Prod(s, t).pc.at);
  }

  lemma QueuedWorks(s: State, t: Thread)
    requires Producing(t) && Prod(s, t).pc.Ready? && s.stream.Eos?
    requires !BeforeQueued(Prod(s, t).pc.at) && !Prod(s, t).pc.at.CheckRoom?
    ensures var s' := StepReady(s, t, Prod(s, t).pc.at); s' == s || Work(s') < Work(s)
  {
    hide StreamWork, StopWork, Enqueue, WakeStream;
    ReadyCases(Prod(s, t).pc.at);
    NobodyToWake(Goto(s, t, Ready(GiveNotEmpty)));
  }

  /** On its way out create() does not wait for data. */
  lemma NobodyToWake(s: State)
    requires s.stream.Eos?
    ensures WakeStream(s) == s
  {
  }

  lemma ReadyWorks(s: State, t: Thread)
    requires Producing(t) && Prod(s, t).pc.Ready? && s.flags.stop.On? && s.stream.Eos?
    ensures var s' := StepReady(s, t, Prod(s, t).pc.at); s' == s || Work(s') < Work(s)
  {
    hide Work, StepReady;
    if Prod(s, t).pc.at.CheckRoom? {
      CheckRoomWorks(s, t);
    } else if BeforeQueued(Prod(s, t).pc.at) {
      WaitingWorks(s, t);
    } else {
      QueuedWorks(s, t);
    }
  }

  lemma EndedWorks(s: State)
    requires s.session.pc.Ended? && s.stream.Eos?
    ensures var s' := StepEnded(s, s.session.pc.stage); s' == s || Work(s') < Work(s)
  {
    hide StreamWork, StopWork, WakeStream;
    EndCases(s.session.pc.stage);
    NobodyToWake(AtEnd(s, EndGiveNotEmpty));
  }

  lemma ShallowWorks(s: State, t: Thread)
    requires Inv(s) && Producing(t) && Shallow(Prod(s, t).pc) && s.flags.stop.On? && s.stream.Eos?
    ensures var s' := StepProducer(s, t); s' == s || Work(s') < Work(s)
  {
    hide StreamWork, StopWork, Locks, Conserved, Drained;
    ProducerCases(Prod(s, t).pc);
    if Prod(s, t).pc.Reblock? && t.Session? && s.session.off < |s.session.data| {
      CopyKeepsSizes(s);
    }
  }

  lemma StreamWorks(s: State)
    requires s.stream.Eos?
    ensures var s' := StepStream(s); s' == s || Work(s') < Work(s)
  {
    hide StopWork, WorkOf, WakeProducer;
    EosCases(s.stream.eos);
    if s.stream.eos.EosSignal? {
      WakingWorks(s.(stream := Eos(EosGiveNotFull)));
    }
  }

  lemma StopperWorks(s: State)
    ensures var s' := StepStopper(s); s' == s || Work(s') < Work(s)
  {
    hide StreamWork, WorkOf, WakeProducer;
    if s.stopper.StopSignal? {
      WakingWorks(s.(stopper := StopGiveNotFull));
    }
  }

  /** Once the flag is up and create() is on its way out, a step that changes anything leaves less to do. */
  lemma StepWorks(s: State, t: Thread)
    requires Inv(s) && s.flags.stop.On? && s.stream.Eos?
    ensures var s' := Next(s, Step(t)); s' == s || Work(s') < Work(s)
  {
    hide Work, StepReady, StepEnded, StepEos, Inv;
    match t
    case Stream => StreamWorks(s);
    case Stopper => StopperWorks(s);
    case _ =>
      if Prod(s, t).pc.Ready? {
        ReadyWorks(s, t);
      } else if Prod(s, t).pc.Ended? {
        OnlySessionEnds(s, t);
        EndedWorks(s);
      } else {
        ShallowWorks(s, t);
      }
  }

  // ----------------------------------------------------------- who is stuck

  /** What every run establishes. */
  predicate Sound(s: State) { Inv(s) && Awake(s) && HandedOver(s) }

  lemma NextSound(s: State, a: Action)
    requires Sound(s)
    ensures Sound(Next(s, a))
  {
    hide Inv, Awake, HandedOver, Next;
    NextKeeps(s, a);
    NextStaysAwake(s, a);
  }

  /** A create() on its way out gets stuck only in front of the flow mutex, behind a sleeping producer. */
  lemma StuckBehindSleeper(s: State)
    requires Sound(s) && Stuck(s) && s.stream.Eos? && !s.stream.eos.EosDone?
    ensures s.stream == Eos(EosWantFlow) && (AsleepAt(s.session.pc) || AsleepAt(s.timer.pc))
  {
    StuckFreesQueueLock(s);
    StuckFreesConditionLocks(s);
    StuckWantsFlow(s);
    if FlowAt(s.session.pc) { StuckInsideIsAsleep(s, Session); }
    if FlowAt(s.timer.pc) { StuckInsideIsAsleep(s, Timer); }
  }

  lemma StuckWantsFlow(s: State)
    requires Inv(s) && Stuck(s) && s.stream.Eos? && !s.stream.eos.EosDone?
    requires s.mutexes.queue.Free? && s.mutexes.notFull.Free?
    ensures s.stream.eos.EosWantFlow? && (FlowAt(s.session.pc) || FlowAt(s.timer.pc))
  {
    hide Blocks, Phases, Conserved, Drained, StepProducer, StepStopper;
  }

  // -------------------------------------------------------- nobody was late

  /** create() has raised the flag, or is done. */
  predicate PastFlag(pc: StreamPc) { FlagRaised(pc) || (pc.Eos? && pc.eos.EosDone?) }

  /** The flag is up and no producer was late. */
  predicate OnTime(s: State) {
    Sound(s) && s.flags.stop.On? && PastFlag(s.stream) && s.history.lateSleeper.Off?
  }

  lemma OnTimeIsNotStuck(s: State)
    requires OnTime(s) && Stuck(s)
    ensures s.stream == Eos(EosDone)
  {
    hide Inv, Awake, Stuck;
    if !s.stream.eos.EosDone? {
      StuckBehindSleeper(s);
    }
  }

  lemma StepStaysOnTime(s: State, t: Thread)
    requires OnTime(s)
    ensures OnTime(Next(s, Step(t)))
  {
    NextSound(s, Step(t));
    StepKeepsFlag(s, t);
  }

  lemma StepKeepsFlag(s: State, t: Thread)
    requires s.flags.stop.On? && PastFlag(s.stream)
    ensures var s' := Next(s, Step(t));
      s'.flags.stop.On? && PastFlag(s'.stream) && s'.history.lateSleeper == s.history.lateSleeper
  {
  }

  ghost predicate OnlySteps(more: seq<Action>) { forall i :: 0 <= i < |more| ==> more[i].Step? }

  /** Every step changes something. */
  predicate Effective(s: State, more: seq<Action>)
    decreases |more|
  {
    more == [] || (more[0].Step? && Next(s, more[0]) != s && Effective(Next(s, more[0]), more[1..]))
  }

  /** However the threads take turns, they run out of steps, and then create() is done. */
  lemma {:induction false} EveryWayOutEnds(s: State, more: seq<Action>)
    requires OnTime(s) && Effective(s, more)
    ensures |more| <= Work(s) && (Stuck(Run(s, more)) ==> Run(s, more).stream == Eos(EosDone))
    decreases |more|
  {
    hide OnTime, Next, Work, Stuck;
    if more == [] {
      if Stuck(s) { OnTimeIsNotStuck(s); }
    } else {
      var t := more[0].thread;
      OnTimeParts(s);
      StepWorks(s, t);
      StepStaysOnTime(s, t);
      EveryWayOutEnds(Next(s, more[0]), more[1..]);
    }
  }

  lemma OnTimeParts(s: State)
    requires OnTime(s)
    ensures Inv(s) && s.flags.stop.On? && s.stream.Eos?
  {
  }

  /** And there is such a way. */
  lemma {:induction false} SomeWayOut(s: State) returns (more: seq<Action>)
    requires OnTime(s)
    ensures OnlySteps(more) && Run(s, more).stream == Eos(EosDone)
    decreases Work(s)
  {
    hide OnTime, Next, Work;
    if s.stream == Eos(EosDone) {
      more := [];
    } else {
      if Stuck(s) { OnTimeIsNotStuck(s); }
      var t :| Next(s, Step(t)) != s;
      OnTimeParts(s);
      StepWorks(s, t);
      StepStaysOnTime(s, t);
      var rest := SomeWayOut(Next(s, Step(t)));
      more := [Step(t)] + rest;
      assert more[1..] == rest;
    }
  }

  // ------------------------------------------------------ somebody was late

  /** Nothing from outside wakes a producer: no stop, and no wait that returns unasked. */
  predicate QuietAction(a: Action) { !a.CallStop? && !a.SpuriousSession? && !a.SpuriousTimer? }

  ghost predicate Quiet(more: seq<Action>) { forall i :: 0 <= i < |more| ==> QuietAction(more[i]) }

  predicate HungBy(stream: StreamPc, pc: ProducerPc) {
    (AtSignal(stream) && Late(pc)) || (stream.Eos? && stream.eos.EosWantFlow? && Sleepy(pc))
  }

  /** create() cannot get past the flow mutex: a producer holds it and sleeps, or is about to. */
  predicate Hung(s: State) {
    s.stopper.NotCalled? && (HungBy(s.stream, s.session.pc) || HungBy(s.stream, s.timer.pc))
  }

  lemma ReadyHung(s: State, t: Thread)
    requires Locks(s) && Hung(s) && Producing(t) && Prod(s, t).pc.Ready?
    ensures Hung(StepReady(s, t, Prod(s, t).pc.at))
  {
    hide FlowOk, QueueOk, NotEmptyOk;
  }

  lemma StreamHung(s: State)
    requires Locks(s) && Hung(s)
    ensures Hung(StepStream(s))
  {
    hide QueueOk, NotEmptyOk, NotFullOk;
  }

  lemma NextHung(s: State, a: Action)
    requires Inv(s) && Hung(s) && QuietAction(a)
    ensures Hung(Next(s, a))
  {
    hide StepReady, StepEos, StepTake, StepWait, Blocks, Phases, Conserved, Drained;
    match a
    case Step(t) =>
      if t.Stream? {
        StreamHung(s);
      } else if Producing(t) && Prod(s, t).pc.Ready? {
        ReadyHung(s, t);
      }
    case _ =>
  }

  lemma {:induction false} StaysHung(s: State, more: seq<Action>)
    requires Inv(s) && Hung(s) && Quiet(more)
    ensures Hung(Run(s, more))
    decreases |more|
  {
    hide Inv, Hung, Next;
    if more != [] {
      NextKeeps(s, more[0]);
      NextHung(s, more[0]);
      StaysHung(Next(s, more[0]), more[1..]);
    }
  }

  // ----------------------------------------------------------------- theorems

  /** A create() on its way out is stuck only behind a producer that was late, asleep with the flow mutex. */
  lemma StuckOnlyIfLate(blockSize: nat, schedule: seq<Action>)
    requires 0 < blockSize
    ensures
      var s := Run(Init(blockSize), schedule);
      s.stream.Eos? && !s.stream.eos.EosDone? && Stuck(s) ==>
        && s.history.lateSleeper.On? && s.stream == Eos(EosWantFlow)
        && (AsleepAt(s.session.pc) || AsleepAt(s.timer.pc))
  {
    hide Run, Stuck, Inv, Awake;
    EveryRun(blockSize, schedule);
    var s := Run(Init(blockSize), schedule);
    if s.stream.Eos? && !s.stream.eos.EosDone? && Stuck(s) {
      StuckBehindSleeper(s);
    }
  }

  lemma LateHangs(s: State, more: seq<Action>)
    requires Inv(s) && AtSignal(s.stream) && s.stopper.NotCalled? && (Late(s.session.pc) || Late(s.timer.pc)) && Quiet(more)
    ensures Run(s, more).stream != Eos(EosDone)
  {
    hide Inv, Run;
    StaysHung(s, more);
  }

  lemma NobodyLate(s: State)
    requires Sound(s) && AtSignal(s.stream) && s.history.lateSleeper.Off?
    ensures !Late(s.session.pc) && !Late(s.timer.pc)
  {
    hide Inv, Awake;
  }

  lemma InTime(s: State)
    requires Sound(s) && AtSignal(s.stream) && s.history.lateSleeper.Off?
    ensures OnTime(s)
  {
    hide Locks, Blocks, Conserved, Drained, Awake, HandedOver;
  }

  lemma InitLateWaits(blockSize: nat)
    ensures LateWaits(Init(blockSize))
  {
  }

  /** create() has sent its signal: a producer sleeps on not-full, or will, if and only if one was late; and as long
      as none was, none ever will. */
  lemma CreateMissesExactlyLateSleepers(blockSize: nat, schedule: seq<Action>)
    requires 0 < blockSize
    ensures
      var s := Run(Init(blockSize), schedule);
      && (s.stream == Eos(EosGiveNotFull) ==>
            (s.history.lateSleeper.On? <==> Sleepy(s.session.pc) || Sleepy(s.timer.pc)))
      && (EosSignalled(s.stream, s.flags) && s.history.lateSleeper.Off? ==>
            !Sleepy(s.session.pc) && !Sleepy(s.timer.pc))
  {
    hide Run, Inv, Awake;
    EveryRun(blockSize, schedule);
    InitInv(blockSize);
    InitLateWaits(blockSize);
    RunLateWaits(Init(blockSize), schedule);
  }

  /** When create() signals at the end of the stream, a producer that had found the queue full and was about to sleep
      when the flag went up is still about to; and if nobody has called stop, create() can finish, without being
      rescued by a stop or a wait that returns unasked, if and only if there was none. */
  lemma ShutdownWorksExactly(blockSize: nat, schedule: seq<Action>)
    requires 0 < blockSize
    ensures
      var s := Run(Init(blockSize), schedule);
      AtSignal(s.stream) ==>
        && (s.history.lateSleeper.On? <==> Late(s.session.pc) || Late(s.timer.pc))
        && (s.stopper.NotCalled? ==>
              (s.history.lateSleeper.Off? <==>
                 exists more: seq<Action> :: Quiet(more) && Run(s, more).stream == Eos(EosDone)))
  {
    hide Run, Inv, Awake, HandedOver, OnTime;
    EveryRun(blockSize, schedule);
    InitInv(blockSize);
    InitLateWaits(blockSize);
    RunLateWaits(Init(blockSize), schedule);
    var s := Run(Init(blockSize), schedule);
    if AtSignal(s.stream) {
      if s.history.lateSleeper.Off? {
        NobodyLate(s);
        InTime(s);
        var more := SomeWayOut(s);
        assert Quiet(more);
      } else if s.stopper.NotCalled? {
        forall more: seq<Action> | Quiet(more) ensures Run(s, more).stream != Eos(EosDone) {
          LateHangs(s, more);
        }
      }
    }
  }

  /** And if there was none it does finish: every way to let the threads take turns runs out of steps with create()
      done. */
  lemma ShutdownTerminates(blockSize: nat, schedule: seq<Action>, more: seq<Action>)
    requires 0 < blockSize
    ensures
      var s := Run(Init(blockSize), schedule);
      AtSignal(s.stream) && s.history.lateSleeper.Off? && Effective(s, more) ==>
        |more| <= Work(s) && (Stuck(Run(s, more)) ==> Run(s, more).stream == Eos(EosDone))
  {
    hide Run, Inv, Awake, HandedOver, OnTime, Effective, Work, Stuck;
    EveryRun(blockSize, schedule);
    var s := Run(Init(blockSize), schedule);
    if AtSignal(s.stream) && s.history.lateSleeper.Off? && Effective(s, more) {
      InTime(s);
      EveryWayOutEnds(s, more);
    }
  }
}
