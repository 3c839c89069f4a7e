/** No httpsrc thread sleeps through the event it waits for, and the threads do not lock each other out. */
module HttpSrcWakeups {
  import opened Bytes
  import opened HttpSrcThreads
  import opened HttpSrcSafety

  /** A producer has made the queue non-empty and not yet signalled it. */
  predicate WillSignal(pc: ProducerPc) {
    pc.Ready? && (pc.at.WantNotEmpty? || pc.at.GiveQueueThenSignal? || pc.at.SignalNotEmpty?)
  }

  /** The session thread has cleared the started flag and not yet sent its final signal. */
  predicate WillSignalEnd(pc: ProducerPc) {
    pc.Ended? && (pc.stage.EndWantQueue? || pc.stage.EndWantNotEmpty? || pc.stage.EndGiveQueue? || pc.stage.EndSignal?)
  }

  /** create() has taken a block off a full queue and not yet signalled it. */
  predicate WillSignalRoom(pc: StreamPc) {
    pc.Take? && (pc.take.SigWantNotFull? || pc.take.SigGiveQueue? || pc.take.SigSignal?)
  }

  /** A sleeping consumer has nothing to take, or is about to be signalled. */
  predicate StreamOk(s: State) {
    s.stream.Wait? ==>
      match s.stream.wait
      case WaitWantNotEmpty =>
        s.store.queue == [] && (s.flags.started.Off? ==> s.session.pc.Ended? && s.session.pc.stage.EndWantQueue?)
      case WaitGiveQueue =>
        s.store.queue == [] && (s.flags.started.Off? ==> s.session.pc.Ended? && s.session.pc.stage.EndWantQueue?)
      case WaitFallAsleep =>
        && (s.store.queue == [] || WillSignal(s.session.pc) || WillSignal(s.timer.pc))
        && (s.flags.started.Off? ==>
              s.session.pc.Ended? && (s.session.pc.stage.EndWantQueue? || s.session.pc.stage.EndWantNotEmpty?))
      case WaitAsleep =>
        && (s.store.queue == [] || WillSignal(s.session.pc) || WillSignal(s.timer.pc))
        && (s.flags.started.Off? ==> WillSignalEnd(s.session.pc))
      case _ => true
  }

  /** A sleeping producer has no room, or is about to be signalled. */
  predicate ProducerSleepOk(pc: ProducerPc, queuedBytes: int, limit: nat, stream: StreamPc) {
    pc.Ready? ==>
      && (pc.at.WantNotFull? || pc.at.GiveQueueThenSleep? ==> queuedBytes > limit)
      && (pc.at.FallAsleep? ==> queuedBytes > limit || (stream.Take? && stream.take.SigWantNotFull?))
      && (pc.at.Asleep? ==> queuedBytes > limit || WillSignalRoom(stream))
  }

  /** A producer that has passed the stop test and will go to sleep. */
  predicate Drowsy(pc: ProducerPc) {
    pc.Ready? && (pc.at.WantNotFull? || pc.at.GiveQueueThenSleep? || pc.at.FallAsleep?)
  }

  predicate Sleepy(pc: ProducerPc) { Drowsy(pc) || AsleepAt(pc) }

  /** gst_http_src_stop has sent its signal. */
  predicate StopSignalled(pc: StopPc) { pc.StopGiveNotFull? || pc.StopJoin? }

  predicate StopHandOver(stopper: StopPc, pc: ProducerPc) {
    && (stopper.StopGiveQueue? || stopper.StopSignal? ==> !Drowsy(pc))
    && (StopSignalled(stopper) ==> !Sleepy(pc))
  }

  /** create() has sent the signal of its end-of-stream path. */
  predicate EosSignalled(pc: StreamPc, f: Flags) {
    pc.Eos? && (pc.eos.EosGiveNotFull? || pc.eos.EosWantFlow? || pc.eos.EosPushCurrent? || AfterCurrent(pc, f))
  }

  predicate EosHandOver(stream: StreamPc, f: Flags, h: History, pc: ProducerPc) {
    h.lateSleeper.Off? ==>
      && (stream == Eos(EosSignal) ==> !Drowsy(pc))
      && (EosSignalled(stream, f) ==> !Sleepy(pc))
  }

  predicate Awake(s: State) {
    && StreamOk(s)
    && ProducerSleepOk(s.session.pc, s.store.queuedBytes, Limit(s.blockSize), s.stream)
    && ProducerSleepOk(s.timer.pc, s.store.queuedBytes, Limit(s.blockSize), s.stream)
  }

  predicate HandedOver(s: State) {
    && StopHandOver(s.stopper, s.session.pc) && StopHandOver(s.stopper, s.timer.pc)
    && EosHandOver(s.stream, s.flags, s.history, s.session.pc)
    && EosHandOver(s.stream, s.flags, s.history, s.timer.pc)
  }

  lemma InitAwake(blockSize: nat)
    ensures Awake(Init(blockSize)) && HandedOver(Init(blockSize))
  {
  }

  lemma {:induction false} ReadyStaysAwake(s: State, t: Thread)
    requires Inv(s) && Awake(s) && Producing(t) && Prod(s, t).pc.Ready?
    ensures
      var s' := StepReady(s, t, Prod(s, t).pc.at);
      && ProducerSleepOk(s'.session.pc, s'.store.queuedBytes, Limit(s'.blockSize), s'.stream)
      && ProducerSleepOk(s'.timer.pc, s'.store.queuedBytes, Limit(s'.blockSize), s'.stream)
  {
    hide Conserved, Drained;
    ReadyCases(Prod(s, t).pc.at);
  }

  lemma {:induction false} ReadyWakesStream(s: State, t: Thread)
    requires Inv(s) && StreamOk(s) && Producing(t) && Prod(s, t).pc.Ready?
    ensures StreamOk(StepReady(s, t, Prod(s, t).pc.at))
  {
    hide Conserved, Drained;
    ReadyCases(Prod(s, t).pc.at);
  }

  lemma {:induction false} ReadyStopHandOver(s: State, t: Thread)
    requires Phases(s) && Locks(s) && Producing(t) && Prod(s, t).pc.Ready?
    requires StopHandOver(s.stopper, s.session.pc) && StopHandOver(s.stopper, s.timer.pc)
    ensures
      var s' := StepReady(s, t, Prod(s, t).pc.at);
      StopHandOver(s'.stopper, s'.session.pc) && StopHandOver(s'.stopper, s'.timer.pc)
  {
    ReadyCases(Prod(s, t).pc.at);
  }

  lemma {:induction false} ReadyEosHandOver(s: State, t: Thread)
    requires s.stream == Eos(EosSignal) || EosSignalled(s.stream, s.flags) ==> s.flags.stop.On?
    requires Producing(t) && Prod(s, t).pc.Ready?
    requires EosHandOver(s.stream, s.flags, s.history, s.session.pc)
    requires EosHandOver(s.stream, s.flags, s.history, s.timer.pc)
    ensures
      var s' := StepReady(s, t, Prod(s, t).pc.at);
      && EosHandOver(s'.stream, s'.flags, s'.history, s'.session.pc)
      && EosHandOver(s'.stream, s'.flags, s'.history, s'.timer.pc)
  {
    ReadyCases(Prod(s, t).pc.at);
  }

  lemma ReadyKeepsAwake(s: State, t: Thread)
    requires Inv(s) && Awake(s) && HandedOver(s) && Producing(t) && Prod(s, t).pc.Ready?
    ensures Awake(StepReady(s, t, Prod(s, t).pc.at)) && HandedOver(StepReady(s, t, Prod(s, t).pc.at))
  {
    hide StepReady, StreamOk, ProducerSleepOk, StopHandOver, EosHandOver, Conserved, Blocks, Locks;
    ReadyStaysAwake(s, t);
    ReadyWakesStream(s, t);
    ReadyStopHandOver(s, t);
    ReadyEosHandOver(s, t);
  }

  lemma {:induction false} ShallowWakesStream(s: State, t: Thread)
    requires StreamOk(s) && Producing(t) && Shallow(Prod(s, t).pc)
    ensures StreamOk(StepProducer(s, t))
  {
    hide Enqueue, Drop, StepReady, StepEnded;
    ProducerCases(Prod(s, t).pc);
  }

  lemma {:induction false} ShallowSleeps(s: State, t: Thread)
    requires ProducerSleepOk(s.session.pc, s.store.queuedBytes, Limit(s.blockSize), s.stream)
    requires ProducerSleepOk(s.timer.pc, s.store.queuedBytes, Limit(s.blockSize), s.stream)
    requires Producing(t) && Shallow(Prod(s, t).pc)
    ensures
      var s' := StepProducer(s, t);
      && ProducerSleepOk(s'.session.pc, s'.store.queuedBytes, Limit(s'.blockSize), s'.stream)
      && ProducerSleepOk(s'.timer.pc, s'.store.queuedBytes, Limit(s'.blockSize), s'.stream)
  {
    hide StepReady, StepEnded;
    ProducerCases(Prod(s, t).pc);
  }

  lemma ShallowStaysAwake(s: State, t: Thread)
    requires Awake(s) && Producing(t) && Shallow(Prod(s, t).pc)
    ensures Awake(StepProducer(s, t))
  {
    hide StepProducer, StreamOk, ProducerSleepOk;
    ShallowWakesStream(s, t);
    ShallowSleeps(s, t);
  }

  lemma {:induction false} ShallowHandedOver(s: State, t: Thread)
    requires Inv(s) && HandedOver(s) && Producing(t) && Shallow(Prod(s, t).pc)
    ensures HandedOver(StepProducer(s, t))
  {
    hide Locks, Blocks, Conserved;
    ProducerCases(Prod(s, t).pc);
  }

  lemma {:induction false} EndedStaysAwake(s: State)
    requires Inv(s) && Awake(s) && HandedOver(s) && s.session.pc.Ended?
    ensures Awake(StepEnded(s, s.session.pc.stage)) && HandedOver(StepEnded(s, s.session.pc.stage))
  {
    hide Conserved, Drained;
    EndCases(s.session.pc.stage);
  }

  lemma {:induction false} TakeStaysAwake(s: State)
    requires Inv(s) && Awake(s) && s.stream.Take?
    ensures Awake(StepTake(s, s.stream.take))
  {
    hide Conserved, Drained;
    TakeCases(s.stream.take);
  }

  lemma {:induction false} TakeHandedOver(s: State)
    requires Inv(s) && HandedOver(s) && s.stream.Take?
    ensures HandedOver(StepTake(s, s.stream.take))
  {
    hide Blocks, Conserved, Drained;
    TakeCases(s.stream.take);
  }

  lemma {:induction false} WaitStaysAwake(s: State)
    requires Inv(s) && Awake(s) && HandedOver(s) && s.stream.Wait?
    ensures Awake(StepWait(s, s.stream.wait)) && HandedOver(StepWait(s, s.stream.wait))
  {
    hide Conserved;
    WaitCases(s.stream.wait);
  }

  lemma {:induction false} EosStaysAwake(s: State)
    requires Inv(s) && Awake(s) && s.stream.Eos?
    ensures Awake(StepEos(s, s.stream.eos))
  {
    hide Conserved;
    EosCases(s.stream.eos);
  }

  lemma {:induction false} EosKeepsStopHandOver(s: State)
    requires StopHandOver(s.stopper, s.session.pc) && StopHandOver(s.stopper, s.timer.pc) && s.stream.Eos?
    ensures var s' := StepEos(s, s.stream.eos); StopHandOver(s'.stopper, s'.session.pc) && StopHandOver(s'.stopper, s'.timer.pc)
  {
    EosCases(s.stream.eos);
  }

  lemma {:induction false} EosKeepsEosHandOver(s: State)
    requires Inv(s) && s.stream.Eos?
    requires EosHandOver(s.stream, s.flags, s.history, s.session.pc)
    requires EosHandOver(s.stream, s.flags, s.history, s.timer.pc)
    ensures
      var s' := StepEos(s, s.stream.eos);
      && EosHandOver(s'.stream, s'.flags, s'.history, s'.session.pc)
      && EosHandOver(s'.stream, s'.flags, s'.history, s'.timer.pc)
  {
    hide Blocks, Conserved, Drained, Phases;
    EosCases(s.stream.eos);
  }

  lemma EosHandedOver(s: State)
    requires Inv(s) && HandedOver(s) && s.stream.Eos?
    ensures HandedOver(StepEos(s, s.stream.eos))
  {
    hide Inv, StepEos, StopHandOver, EosHandOver;
    EosKeepsStopHandOver(s);
    EosKeepsEosHandOver(s);
  }

  lemma {:induction false} StopperStaysAwake(s: State)
    requires Inv(s) && Awake(s)
    ensures Awake(StepStopper(s))
  {
    hide Conserved, Drained, Blocks;
    StopCases(s.stopper);
  }

  lemma {:induction false} StopperHandedOver(s: State)
    requires Inv(s) && HandedOver(s)
    ensures HandedOver(StepStopper(s))
  {
    hide Conserved, Drained, Blocks;
    StopCases(s.stopper);
  }

  lemma {:induction false} EnvironmentStaysAwake(s: State, a: Action)
    requires Inv(s) && Awake(s) && !a.Step?
    ensures Awake(Next(s, a))
  {
    hide Locks, Blocks, Conserved, Drained;
    ActionCases(a);
  }

  lemma {:induction false} EnvironmentHandedOver(s: State, a: Action)
    requires Inv(s) && HandedOver(s) && !a.Step?
    ensures HandedOver(Next(s, a))
  {
    hide Locks, Blocks, Conserved;
    ActionCases(a);
  }

  lemma ProducerStaysAwake(s: State, t: Thread)
    requires Inv(s) && Awake(s) && HandedOver(s) && Producing(t)
    ensures Awake(StepProducer(s, t)) && HandedOver(StepProducer(s, t))
  {
    hide Awake, HandedOver, StepReady, StepEnded;
    if Prod(s, t).pc.Ready? {
      ReadyKeepsAwake(s, t);
    } else if Prod(s, t).pc.Ended? {
      OnlySessionEnds(s, t);
      EndedStaysAwake(s);
    } else {
      ShallowStaysAwake(s, t);
      ShallowHandedOver(s, t);
    }
  }

  lemma OnlySessionEnds(s: State, t: Thread)
    requires Inv(s) && Producing(t) && Prod(s, t).pc.Ended?
    ensures t.Session?
  {
  }

  lemma StreamStaysAwake(s: State)
    requires Inv(s) && Awake(s) && HandedOver(s)
    ensures Awake(StepStream(s)) && HandedOver(StepStream(s))
  {
    hide Inv, Awake, HandedOver, StepTake, StepWait, StepEos;
    match s.stream
    case Downstream =>
    case Take(at) => TakeStaysAwake(s); TakeHandedOver(s);
    case Wait(at) => WaitStaysAwake(s);
    case Eos(at) => EosStaysAwake(s); EosHandedOver(s);
  }

  lemma NextStaysAwake(s: State, a: Action)
    requires Inv(s) && Awake(s) && HandedOver(s)
    ensures Awake(Next(s, a)) && HandedOver(Next(s, a))
  {
    hide Inv, Awake, HandedOver, StepProducer, StepStream, StepStopper;
    match a
    case Step(t) =>
      match t {
        case Stream => StreamStaysAwake(s);
        case Stopper => StopperStaysAwake(s); StopperHandedOver(s);
        case _ => ProducerStaysAwake(s, t);
      }
    case _ =>
      EnvironmentStaysAwake(s, a);
      EnvironmentHandedOver(s, a);
  }

  lemma {:induction false} RunStaysAwake(s: State, schedule: seq<Action>)
    requires Inv(s) && Awake(s) && HandedOver(s)
    ensures Inv(Run(s, schedule)) && Awake(Run(s, schedule)) && HandedOver(Run(s, schedule))
    decreases |schedule|
  {
    if schedule != [] {
      NextKeeps(s, schedule[0]);
      NextStaysAwake(s, schedule[0]);
      RunStaysAwake(Next(s, schedule[0]), schedule[1..]);
    }
  }
}
