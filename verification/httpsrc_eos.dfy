/**
 The end of the stream. The session has ended normally, create() has left its
 loop because the queue was empty, nobody asked for a stop: has everything
 curl handed over been pushed when create() is done?
*/
module HttpSrcEndOfStream {
  import opened Bytes
  import opened HttpSrcThreads
  import opened HttpSrcSafety
  import opened HttpSrcWakeups

  predicate Clean(h: History) {
    h.exitedEmpty.On? && h.ending.Normal? && h.stopCalled.Off?
  }

  predicate BeforeFlag(pc: StreamPc) {
    pc.Eos? && (pc.eos.EosStart? || pc.eos.EosWantQueue? || pc.eos.EosWantNotFull?
                || pc.eos.EosGiveQueue? || pc.eos.EosSetStop?)
  }

  /** After the last push nothing is queued any more. */
  predicate LastPushDone(pc: StreamPc) {
    pc.Eos? && (pc.eos.EosGiveFlowPushed? || pc.eos.EosGiveQueueAgain? || pc.eos.EosDone?)
  }

  /** A producer whose block will be freed, now that the stop flag is up. */
  predicate Doomed(pc: ProducerPc) {
    pc.Ready? && (pc.at.Woken? || pc.at.GiveNotFull? || pc.at.CheckStop? || pc.at.Refused?)
  }

  predicate Exited(s: State) {
    && (s.history.exitedEmpty.On? ==> s.stream.Eos?)
    && (s.history.exitedEmpty.On? && s.history.stopCalled.Off? ==> !s.history.ending.Running?)
  }

  /** At most one block is left, in exactly one place. */
  predicate OneLeft(s: State) {
    Clean(s.history) ==>
      && |s.store.queue| <= 1
      && (s.store.queue != [] ==> s.store.curr == [] && s.timer.block == [])
      && (LastPushDone(s.stream) ==> s.store.queue == [])
      && s.history.disordered.Off?
      && s.history.refused.Off?
  }

  /** Whether that block is lost depends on where its producer was when the stop flag went up. */
  predicate Fate(s: State) {
    Clean(s.history) ==>
      && !Sleepy(s.timer.pc)
      && (BeforeFlag(s.stream) ==> s.history.dropped == 0 && s.flags.stop.Off?)
      && (!BeforeFlag(s.stream) ==>
            s.flags.stop.On? &&
            if s.history.staleWaiter.On? then s.history.dropped > 0 || Doomed(s.timer.pc)
            else s.history.dropped == 0 && !Doomed(s.timer.pc))
  }

  predicate EosInv(s: State) {
    Exited(s) && OneLeft(s) && Fate(s)
  }

  predicate AllInv(s: State) {
    Inv(s) && Awake(s) && HandedOver(s) && EosInv(s)
  }

  lemma {:induction false} ReadyKeepsEos(s: State, t: Thread)
    requires AllInv(s) && Producing(t) && Prod(s, t).pc.Ready?
    ensures Exited(StepReady(s, t, Prod(s, t).pc.at)) && OneLeft(StepReady(s, t, Prod(s, t).pc.at))
  {
    hide HandedOver, Conserved;
    ReadyCases(Prod(s, t).pc.at);
  }

  /** One block is no reason to wait. */
  lemma OneLeftFits(s: State)
    requires Blocks(s) && OneLeft(s)
    ensures Clean(s.history) ==> s.store.queuedBytes <= Limit(s.blockSize)
  {
    var q := s.store.queue;
    if Clean(s.history) && q != [] {
      FlattenSnoc([], q[0]);
      assert [] + [q[0]] == q;
    }
  }

  lemma {:induction false} ReadyKeepsFate(s: State, t: Thread)
    requires Fate(s) && Exited(s) && Phases(s) && Blocks(s) && Producing(t) && Prod(s, t).pc.Ready?
    requires Clean(s.history) ==> s.store.queuedBytes <= Limit(s.blockSize)
    ensures Fate(StepReady(s, t, Prod(s, t).pc.at))
  {
    ReadyCases(Prod(s, t).pc.at);
  }

  lemma {:induction false} ShallowKeepsEos(s: State, t: Thread)
    requires AllInv(s) && Producing(t) && Shallow(Prod(s, t).pc)
    ensures EosInv(StepProducer(s, t))
  {
    hide Awake, HandedOver, Locks, Conserved;
    ProducerCases(Prod(s, t).pc);
  }

  lemma {:induction false} EndedKeepsEos(s: State)
    requires AllInv(s) && s.session.pc.Ended?
    ensures EosInv(StepEnded(s, s.session.pc.stage))
  {
    hide Awake, HandedOver, Conserved, Drained;
    EndCases(s.session.pc.stage);
  }

  lemma {:induction false} TakeKeepsEos(s: State)
    requires AllInv(s) && s.stream.Take?
    ensures EosInv(StepTake(s, s.stream.take))
  {
    hide HandedOver, Conserved;
    TakeCases(s.stream.take);
  }

  lemma {:induction false} WaitKeepsEos(s: State)
    requires AllInv(s) && s.stream.Wait?
    ensures EosInv(StepWait(s, s.stream.wait))
  {
    hide Awake, HandedOver, Conserved;
    WaitCases(s.stream.wait);
  }

  lemma {:induction false} EosKeepsEos(s: State)
    requires AllInv(s) && s.stream.Eos?
    ensures Exited(StepEos(s, s.stream.eos)) && OneLeft(StepEos(s, s.stream.eos))
  {
    hide Awake, HandedOver, Conserved, Locks;
    EosCases(s.stream.eos);
  }

  lemma {:induction false} EosKeepsFate(s: State)
    requires AllInv(s) && s.stream.Eos?
    ensures Fate(StepEos(s, s.stream.eos))
  {
    hide Awake, Blocks, Conserved, Drained;
    EosCases(s.stream.eos);
  }

  lemma {:induction false} StopperKeepsEos(s: State)
    requires AllInv(s)
    ensures EosInv(StepStopper(s))
  {
    hide Awake, Conserved, Drained;
    StopCases(s.stopper);
  }

  lemma {:induction false} EnvironmentKeepsEos(s: State, a: Action)
    requires AllInv(s) && !a.Step?
    ensures EosInv(Next(s, a))
  {
    hide Awake, HandedOver, Conserved, Locks;
    ActionCases(a);
  }

  lemma ProducerKeepsEos(s: State, t: Thread)
    requires AllInv(s) && Producing(t)
    ensures EosInv(StepProducer(s, t))
  {
    hide StepReady, StepEnded, Awake, HandedOver, OneLeft, Fate, Exited, Conserved, Drained, Locks;
    if Prod(s, t).pc.Ready? {
      ReadyKeepsEos(s, t);
      OneLeftFits(s);
      ReadyKeepsFate(s, t);
    } else if Prod(s, t).pc.Ended? {
      OnlySessionEnds(s, t);
      EndedKeepsEos(s);
    } else {
      ShallowKeepsEos(s, t);
    }
  }

  lemma StreamKeepsEos(s: State)
    requires AllInv(s)
    ensures EosInv(StepStream(s))
  {
    hide Inv, Awake, HandedOver, Exited, OneLeft, Fate, StepTake, StepWait, StepEos;
    match s.stream
    case Downstream =>
    case Take(at) => TakeKeepsEos(s);
    case Wait(at) => WaitKeepsEos(s);
    case Eos(at) => EosKeepsEos(s); EosKeepsFate(s);
  }

  lemma NextKeepsEos(s: State, a: Action)
    requires AllInv(s)
    ensures AllInv(Next(s, a))
  {
    hide Inv, Awake, HandedOver, EosInv, StepProducer, StepStream, StepStopper;
    NextKeeps(s, a);
    NextStaysAwake(s, a);
    match a
    case Step(t) =>
      match t {
        case Stream => StreamKeepsEos(s);
        case Stopper => StopperKeepsEos(s);
        case _ => ProducerKeepsEos(s, t);
      }
    case _ => EnvironmentKeepsEos(s, a);
  }

  lemma {:induction false} RunKeepsAll(s: State, schedule: seq<Action>)
    requires AllInv(s)
    ensures AllInv(Run(s, schedule))
    decreases |schedule|
  {
    if schedule != [] {
      NextKeepsEos(s, schedule[0]);
      RunKeepsAll(Next(s, schedule[0]), schedule[1..]);
    }
  }
}
