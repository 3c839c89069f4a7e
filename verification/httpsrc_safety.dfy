/** What every interleaving of the httpsrc threads keeps. */
module HttpSrcSafety {
  import opened Bytes
  import opened HttpSrcThreads

  // ---------------------------------------------------------- who holds what

  predicate FlowAt(pc: ProducerPc) {
    pc.Entered? || pc.Reblock? || pc.Ready? || pc.Leave? || (pc.Ended? && pc.stage.EndGiveFlow?)
  }

  predicate QueueAt(pc: ProducerPc) {
    match pc
    case Ready(at) => at.CheckRoom? || at.WantNotFull? || at.GiveQueueThenSleep?
                      || at.WantNotEmpty? || at.GiveQueueThenSignal? || at.GiveQueue?
    case Ended(stage) => stage.EndWantNotEmpty? || stage.EndGiveQueue?
    case _ => false
  }

  predicate NotFullAt(pc: ProducerPc) {
    pc.Ready? && (pc.at.GiveQueueThenSleep? || pc.at.FallAsleep? || pc.at.GiveNotFull?)
  }

  predicate NotEmptyAt(pc: ProducerPc) {
    match pc
    case Ready(at) => at.GiveQueueThenSignal? || at.SignalNotEmpty? || at.GiveNotEmpty?
    case Ended(stage) => stage.EndGiveQueue? || stage.EndSignal? || stage.EndGiveNotEmpty?
    case _ => false
  }

  predicate StreamFlowAt(pc: StreamPc) {
    pc.Eos? && (pc.eos.EosPushCurrent? || pc.eos.EosGiveFlowPushed? || pc.eos.EosGiveFlow?)
  }

  predicate StreamQueueAt(pc: StreamPc) {
    match pc
    case Downstream => false
    case Take(at) => at.TakeHead? || at.TakeGiveQueue? || at.SigWantNotFull? || at.SigGiveQueue?
    case Wait(at) => at.WaitWantNotEmpty? || at.WaitGiveQueue?
    case Eos(at) => at.EosWantNotFull? || at.EosGiveQueue? || at.EosPushSole? || at.EosGiveQueueAgain?
  }

  predicate StreamNotFullAt(pc: StreamPc) {
    match pc
    case Take(at) => at.SigGiveQueue? || at.SigSignal? || at.SigGiveNotFull?
    case Eos(at) => at.EosGiveQueue? || at.EosSetStop? || at.EosSignal? || at.EosGiveNotFull?
    case _ => false
  }

  predicate StreamNotEmptyAt(pc: StreamPc) {
    pc.Wait? && (pc.wait.WaitGiveQueue? || pc.wait.WaitFallAsleep? || pc.wait.WaitGiveNotEmpty?)
  }

  predicate StopQueueAt(pc: StopPc) {
    pc.StopWantNotFull? || pc.StopGiveQueue?
  }

  predicate StopNotFullAt(pc: StopPc) {
    pc.StopGiveQueue? || pc.StopSignal? || pc.StopGiveNotFull?
  }

  predicate FlowOk(l: Lock, session: ProducerPc, timer: ProducerPc, stream: StreamPc) {
    && (l.BySession? <==> FlowAt(session))
    && (l.ByTimer? <==> FlowAt(timer))
    && (l.ByStream? <==> StreamFlowAt(stream))
    && !l.ByStopper?
  }

  predicate QueueOk(l: Lock, session: ProducerPc, timer: ProducerPc, stream: StreamPc, stopper: StopPc) {
    && (l.BySession? <==> QueueAt(session))
    && (l.ByTimer? <==> QueueAt(timer))
    && (l.ByStream? <==> StreamQueueAt(stream))
    && (l.ByStopper? <==> StopQueueAt(stopper))
  }

  predicate NotFullOk(l: Lock, session: ProducerPc, timer: ProducerPc, stream: StreamPc, stopper: StopPc) {
    && (l.BySession? <==> NotFullAt(session))
    && (l.ByTimer? <==> NotFullAt(timer))
    && (l.ByStream? <==> StreamNotFullAt(stream))
    && (l.ByStopper? <==> StopNotFullAt(stopper))
  }

  predicate NotEmptyOk(l: Lock, session: ProducerPc, timer: ProducerPc, stream: StreamPc) {
    && (l.BySession? <==> NotEmptyAt(session))
    && (l.ByTimer? <==> NotEmptyAt(timer))
    && (l.ByStream? <==> StreamNotEmptyAt(stream))
    && !l.ByStopper?
  }

  /** Every mutex is held by exactly the thread whose program point says so. */
  predicate Locks(s: State) {
    && FlowOk(s.mutexes.flow, s.session.pc, s.timer.pc, s.stream)
    && QueueOk(s.mutexes.queue, s.session.pc, s.timer.pc, s.stream, s.stopper)
    && NotFullOk(s.mutexes.notFull, s.session.pc, s.timer.pc, s.stream, s.stopper)
    && NotEmptyOk(s.mutexes.notEmpty, s.session.pc, s.timer.pc, s.stream)
  }

  // ------------------------------------------------------------ the data

  /** Program points at which a producer has a block of its own. */
  predicate BlockAt(pc: ProducerPc) {
    pc.Ready? && !(pc.at.WantNotEmpty? || pc.at.GiveQueueThenSignal? || pc.at.SignalNotEmpty?
                   || pc.at.GiveNotEmpty? || pc.at.GiveQueue?)
  }

  predicate TakenAt(pc: StreamPc) {
    pc.Take? && !(pc.take.TakeWantQueue? || pc.take.TakeHead?)
  }

  /** Program points outside data_received. */
  predicate Rests(pc: ProducerPc) { pc.Outside? || pc.Ended? || pc.Finished? }

  predicate ProducerOk(p: Producer, curr: seq<byte>, blockSize: nat) {
    && p.off <= |p.data|
    && |p.block| <= blockSize
    && (p.block != [] <==> BlockAt(p.pc))
    && (p.block != [] ==> curr == [])
    && (Rests(p.pc) ==> p.data == [] && p.off == 0)
  }

  /** Sizes: no block is empty or longer than the block size, the current block always has room. */
  predicate Sizes(q: Store, blockSize: nat) {
    && 0 < blockSize
    && |q.curr| < blockSize
    && (forall i :: 0 <= i < |q.queue| ==> 0 < |q.queue[i]| <= blockSize)
    && |q.taken| <= blockSize
    && q.queuedBytes == |Flatten(q.queue)|
    && q.queuedBytes <= Limit(blockSize) + blockSize
  }

  predicate Blocks(s: State) {
    && Sizes(s.store, s.blockSize)
    && ProducerOk(s.session, s.store.curr, s.blockSize)
    && ProducerOk(s.timer, s.store.curr, s.blockSize)
    && s.timer.data == [] && s.timer.off == 0
    && (s.store.taken != [] <==> TakenAt(s.stream))
  }

  /** All bytes between curl and downstream, oldest first. */
  function InTransit(q: Store, sessionBlock: seq<byte>, timerBlock: seq<byte>): seq<byte> {
    q.taken + Flatten(q.queue) + sessionBlock + timerBlock + q.curr
  }

  /** Nothing is lost, repeated or reordered. */
  predicate Kept(h: History, transit: seq<byte>) {
    && h.readPosition == |h.delivered|
    && |h.delivered| + |transit| + h.dropped == |h.accepted|
    && (h.dropped == 0 && h.disordered.Off? ==> h.delivered + transit == h.accepted)
  }

  predicate Conserved(s: State) {
    && Kept(s.history, InTransit(s.store, s.session.block, s.timer.block))
    && s.session.off <= |s.session.data|
    && (s.session.pc.Leave? && s.history.refused.Off? ==> s.session.off == |s.session.data|)
    && (s.history.refused.Off? ==> s.history.accepted + s.session.data[s.session.off..] == s.history.input)
  }

  // ------------------------------------------------------------ the phases

  /** create() is past the point where it raises the stop flag. */
  predicate FlagRaised(pc: StreamPc) {
    pc.Eos? && !(pc.eos.EosStart? || pc.eos.EosWantQueue? || pc.eos.EosWantNotFull?
                 || pc.eos.EosGiveQueue? || pc.eos.EosSetStop? || pc.eos.EosDone?)
  }

  predicate Joined(pc: ProducerPc) {
    pc.Finished? || (pc.Ended? && !(pc.stage.EndWantFlow? || pc.stage.EndGiveFlow? || pc.stage.EndJoin?))
  }

  predicate Stopping(f: Flags, h: History, stream: StreamPc) {
    && (h.stopCalled.On? || FlagRaised(stream) || h.dropped > 0 || h.refused.On? || h.disordered.On? ==> f.stop.On?)
    && (f.stop.On? ==> h.stopCalled.On? || h.ending.StopOnly? || h.ending.ErrorAndStop?
                       || FlagRaised(stream) || (stream.Eos? && stream.eos.EosDone?))
    && (f.failed.On? ==> h.ending.ErrorOnly? || h.ending.ErrorAndStop?)
  }

  predicate Phases(s: State) {
    && Stopping(s.flags, s.history, s.stream)
    && !s.timer.pc.Reblock? && !s.timer.pc.Ended?
    && (s.timer.pc.Finished? ==> s.flags.stop.On?)
    && (s.flags.paused.On? ==> s.session.pc.Ended? || s.session.pc.Finished?)
    && (s.session.pc.Ended? || s.session.pc.Finished? <==> !s.history.ending.Running?)
    && (s.flags.started.Off? <==> Joined(s.session.pc))
    && (s.flags.started.Off? ==> s.timer.pc.Finished?)
    && (!s.stopper.NotCalled? ==> s.history.stopCalled.On?)
    && (s.session.pc == Ready(Refused) || s.timer.pc == Ready(Refused) ==> s.flags.stop.On?)
  }

  /** create() has dealt with the current block on its way out; an error ends it earlier. */
  predicate AfterCurrent(pc: StreamPc, f: Flags) {
    pc.Eos? && (pc.eos.EosGiveFlowPushed? || pc.eos.EosGiveFlow? || pc.eos.EosWantQueueAgain?
                || pc.eos.EosPushSole? || pc.eos.EosGiveQueueAgain? || (pc.eos.EosDone? && f.failed.Off?))
  }

  /** From then on there is no current block and no block in a producer's hands. */
  predicate Drained(s: State) {
    AfterCurrent(s.stream, s.flags) ==>
      && s.flags.stop.On?
      && s.store.curr == []
      && !s.session.pc.Reblock? && !s.session.pc.Ready? && !s.timer.pc.Ready?
  }

  predicate Inv(s: State) {
    Locks(s) && Blocks(s) && Phases(s) && Conserved(s) && Drained(s)
  }

  lemma InitInv(blockSize: nat)
    requires 0 < blockSize
    ensures Inv(Init(blockSize))
  {
  }

  predicate Producing(t: Thread) { t.Session? || t.Timer? }

  /** Only the holder of flowTimerMutex has a block of its own. */
  lemma OneProducerInside(s: State, t: Thread)
    requires Inv(s) && Producing(t) && FlowAt(Prod(s, t).pc)
    ensures t.Session? ==> s.timer.block == []
    ensures t.Timer? ==> s.session.block == []
  {
  }

  /** A step that moves program counters but no data. */
  predicate SameProducer(p: Producer, p': Producer) {
    && p'.data == p.data && p'.off == p.off && p'.block == p.block
    && (BlockAt(p'.pc) <==> BlockAt(p.pc))
    && (Rests(p'.pc) ==> Rests(p.pc))
    && (p'.pc.Leave? ==> p.pc.Leave? || p.data == [])
  }

  predicate SameHistory(h: History, h': History) {
    && h'.input == h.input && h'.accepted == h.accepted && h'.delivered == h.delivered
    && h'.readPosition == h.readPosition && h'.dropped == h.dropped
    && h'.refused == h.refused && h'.disordered == h.disordered
  }

  predicate SameData(s: State, s': State) {
    && s'.blockSize == s.blockSize && s'.store == s.store && SameHistory(s.history, s'.history)
    && SameProducer(s.session, s'.session) && SameProducer(s.timer, s'.timer)
    && (TakenAt(s'.stream) <==> TakenAt(s.stream))
  }

  lemma SameDataKeeps(s: State, s': State)
    requires Blocks(s) && Conserved(s) && SameData(s, s')
    ensures Blocks(s') && Conserved(s')
  {
  }

  // ----------------------------------------------- steps of buffer_ready

  lemma {:induction false} ReadyKeepsQueueLock(s: State, t: Thread)
    requires Locks(s) && Producing(t) && Prod(s, t).pc.Ready?
    ensures
      var s' := StepReady(s, t, Prod(s, t).pc.at);
      QueueOk(s'.mutexes.queue, s'.session.pc, s'.timer.pc, s'.stream, s'.stopper)
  {
    hide FlowOk, NotFullOk, NotEmptyOk;
    ReadyCases(Prod(s, t).pc.at);
  }

  lemma {:induction false} ReadyKeepsNotFullLock(s: State, t: Thread)
    requires Locks(s) && Producing(t) && Prod(s, t).pc.Ready?
    ensures
      var s' := StepReady(s, t, Prod(s, t).pc.at);
      NotFullOk(s'.mutexes.notFull, s'.session.pc, s'.timer.pc, s'.stream, s'.stopper)
  {
    hide FlowOk, QueueOk, NotEmptyOk;
    ReadyCases(Prod(s, t).pc.at);
  }

  lemma {:induction false} ReadyKeepsOtherLocks(s: State, t: Thread)
    requires Locks(s) && Producing(t) && Prod(s, t).pc.Ready?
    ensures
      var s' := StepReady(s, t, Prod(s, t).pc.at);
      && FlowOk(s'.mutexes.flow, s'.session.pc, s'.timer.pc, s'.stream)
      && NotEmptyOk(s'.mutexes.notEmpty, s'.session.pc, s'.timer.pc, s'.stream)
  {
    hide QueueOk, NotFullOk;
    ReadyCases(Prod(s, t).pc.at);
  }

  lemma {:induction false} ReadyKeepsPhases(s: State, t: Thread)
    requires Phases(s) && Drained(s) && Producing(t) && Prod(s, t).pc.Ready?
    ensures Phases(StepReady(s, t, Prod(s, t).pc.at)) && Drained(StepReady(s, t, Prod(s, t).pc.at))
  {
    ReadyCases(Prod(s, t).pc.at);
  }

  lemma EnqueueKeeps(s: State, t: Thread)
    requires Inv(s) && Producing(t) && Prod(s, t).pc == Ready(CheckRoom)
    requires s.store.queuedBytes <= Limit(s.blockSize)
    ensures Blocks(Enqueue(s, t)) && Conserved(Enqueue(s, t))
  {
    hide Locks, Phases, Drained, Flatten;
    var b := Prod(s, t).block;
    OneProducerInside(s, t);
    FlattenSnoc(s.store.queue, b);
    BlockQueued(s.store.taken, Flatten(s.store.queue), b);
  }

  lemma BlockQueued(taken: seq<byte>, queued: seq<byte>, b: seq<byte>)
    ensures taken + (queued + b) + [] + [] + [] == taken + queued + b + [] + []
    ensures taken + (queued + b) + [] + [] + [] == taken + queued + [] + b + []
  {
  }

  lemma DropKeeps(s: State, t: Thread)
    requires Inv(s) && Producing(t) && Prod(s, t).pc == Ready(Refused)
    ensures Blocks(Drop(s, t)) && Conserved(Drop(s, t))
  {
    OneProducerInside(s, t);
  }

  lemma {:induction false} WaitingMovesNoData(s: State, t: Thread)
    requires Producing(t) && Prod(s, t).pc.Ready? && BeforeQueued(Prod(s, t).pc.at)
    ensures SameData(s, StepReady(s, t, Prod(s, t).pc.at))
  {
    hide Enqueue, Drop, WakeStream;
    ReadyCases(Prod(s, t).pc.at);
  }

  lemma WakingMovesNoData(s: State)
    ensures SameData(s, WakeStream(s)) && WakeStream(s).session == s.session && WakeStream(s).timer == s.timer
  {
  }

  lemma {:induction false} QueuedMovesNoData(s: State, t: Thread)
    requires Producing(t) && Prod(s, t).pc.Ready? && !BeforeQueued(Prod(s, t).pc.at) && s.timer.data == []
    requires Prod(s, t).pc.at.CheckRoom? ==> s.store.queuedBytes > Limit(s.blockSize)
    requires !Prod(s, t).pc.at.Refused?
    ensures SameData(s, StepReady(s, t, Prod(s, t).pc.at))
  {
    hide Enqueue, Drop, WakeStream;
    ReadyCases(Prod(s, t).pc.at);
    WakingMovesNoData(Goto(s, t, Ready(GiveNotEmpty)));
  }

  lemma ReadyMovesNoData(s: State, t: Thread)
    requires Producing(t) && Prod(s, t).pc.Ready? && s.timer.data == []
    requires Prod(s, t).pc.at.CheckRoom? ==> s.store.queuedBytes > Limit(s.blockSize)
    requires !Prod(s, t).pc.at.Refused?
    ensures SameData(s, StepReady(s, t, Prod(s, t).pc.at))
  {
    hide SameData, StepReady;
    if BeforeQueued(Prod(s, t).pc.at) {
      WaitingMovesNoData(s, t);
    } else {
      QueuedMovesNoData(s, t);
    }
  }

  lemma ReadyKeeps(s: State, t: Thread)
    requires Inv(s) && Producing(t) && Prod(s, t).pc.Ready?
    ensures Inv(StepReady(s, t, Prod(s, t).pc.at))
  {
    ReadyKeepsQueueLock(s, t);
    ReadyKeepsNotFullLock(s, t);
    ReadyKeepsOtherLocks(s, t);
    ReadyKeepsPhases(s, t);
    var at := Prod(s, t).pc.at;
    if at.Refused? {
      DropKeeps(s, t);
    } else if at.CheckRoom? && s.store.queuedBytes <= Limit(s.blockSize) {
      EnqueueKeeps(s, t);
    } else {
      ReadyMovesNoData(s, t);
      SameDataKeeps(s, StepReady(s, t, at));
    }
  }

  // -------------------------------- steps of data_received and of the end

  lemma CopyKeepsSizes(s: State)
    requires Inv(s) && s.session.pc.Reblock? && s.session.off < |s.session.data|
    ensures Blocks(CopyIntoBlock(s))
    // the assertion in the copying loop: a block with room left means the data is used up
    ensures CopyIntoBlock(s).store.curr != [] ==> CopyIntoBlock(s).session.off == |s.session.data|
    ensures CopyIntoBlock(s).session.off > s.session.off
  {
    OneProducerInside(s, Session);
  }

  lemma CopyMovesBytes(s: State)
    requires Inv(s) && s.session.pc.Reblock? && s.session.off < |s.session.data|
    ensures
      var s' := CopyIntoBlock(s);
      s.session.off <= s'.session.off <= |s.session.data| &&
      var bytes := s.session.data[s.session.off..s'.session.off];
      && s'.history == s.history.(accepted := s.history.accepted + bytes)
      && s'.session.data == s.session.data && !s'.session.pc.Leave?
      && InTransit(s'.store, s'.session.block, s'.timer.block)
         == InTransit(s.store, s.session.block, s.timer.block) + bytes
  {
    hide Flatten, Locks, Phases, Conserved, Drained, CopyIntoBlock, Sizes;
    assert s.timer.block == [] by { OneProducerInside(s, Session); }
    CopiedBytesPlace(s);
    var p, curr, front := s.session, s.store.curr, s.store.taken + Flatten(s.store.queue);
    BytesCopied(front, curr, p.data[p.off..CopyIntoBlock(s).session.off]);
  }

  /** The bytes go behind the current block's, which stays where it is or becomes the producer's own. */
  lemma CopiedBytesPlace(s: State)
    requires Sizes(s.store, s.blockSize) && s.session.off < |s.session.data|
    ensures
      var s' := CopyIntoBlock(s);
      s.session.off <= s'.session.off <= |s.session.data| &&
      var bytes := s.session.data[s.session.off..s'.session.off];
      && s'.history == s.history.(accepted := s.history.accepted + bytes) && s'.timer == s.timer
      && s'.session.data == s.session.data && (s'.session.pc == s.session.pc || s'.session.pc.Ready?)
      && s'.store.taken == s.store.taken && s'.store.queue == s.store.queue
      && ((s'.store.curr == s.store.curr + bytes && s'.session.block == s.session.block)
          || (s'.store.curr == [] && s'.session.block == s.store.curr + bytes))
  {
    hide Flatten;
  }

  lemma BytesCopied(front: seq<byte>, curr: seq<byte>, bytes: seq<byte>)
    ensures front + [] + [] + (curr + bytes) == (front + [] + [] + curr) + bytes
    ensures front + (curr + bytes) + [] + [] == (front + [] + [] + curr) + bytes
  {
  }

  lemma KeptGrows(h: History, transit: seq<byte>, bytes: seq<byte>)
    requires Kept(h, transit)
    ensures Kept(h.(accepted := h.accepted + bytes), transit + bytes)
  {
    assert h.delivered + (transit + bytes) == (h.delivered + transit) + bytes;
  }

  lemma CopyKeepsBytes(s: State)
    requires Inv(s) && s.session.pc.Reblock? && s.session.off < |s.session.data|
    ensures Conserved(CopyIntoBlock(s))
  {
    hide CopyIntoBlock, InTransit, Kept, Locks, Phases, Drained, Sizes;
    CopyMovesBytes(s);
    var s' := CopyIntoBlock(s);
    var p := s.session;
    var bytes := p.data[p.off..s'.session.off];
    KeptGrows(s.history, InTransit(s.store, p.block, s.timer.block), bytes);
    assert p.data[p.off..] == bytes + p.data[s'.session.off..];
  }

  lemma TakeCurrentKeeps(s: State)
    requires Inv(s) && s.timer.pc.Entered? && s.store.curr != []
    ensures Blocks(TakeCurrent(s)) && Conserved(TakeCurrent(s))
  {
    OneProducerInside(s, Timer);
  }

  predicate Shallow(pc: ProducerPc) { !pc.Ready? && !pc.Ended? }

  lemma {:induction false} ShallowKeepsLocks(s: State, t: Thread)
    requires Locks(s) && Producing(t) && Shallow(Prod(s, t).pc)
    ensures
      var s' := StepProducer(s, t);
      && FlowOk(s'.mutexes.flow, s'.session.pc, s'.timer.pc, s'.stream)
      && QueueOk(s'.mutexes.queue, s'.session.pc, s'.timer.pc, s'.stream, s'.stopper)
  {
    ProducerCases(Prod(s, t).pc);
  }

  lemma {:induction false} ShallowKeepsConditionLocks(s: State, t: Thread)
    requires Locks(s) && Producing(t) && Shallow(Prod(s, t).pc)
    ensures
      var s' := StepProducer(s, t);
      && NotFullOk(s'.mutexes.notFull, s'.session.pc, s'.timer.pc, s'.stream, s'.stopper)
      && NotEmptyOk(s'.mutexes.notEmpty, s'.session.pc, s'.timer.pc, s'.stream)
  {
    ProducerCases(Prod(s, t).pc);
  }

  lemma {:induction false} ShallowKeepsPhases(s: State, t: Thread)
    requires Phases(s) && Drained(s) && Producing(t) && Shallow(Prod(s, t).pc)
    ensures Phases(StepProducer(s, t)) && Drained(StepProducer(s, t))
  {
    ProducerCases(Prod(s, t).pc);
  }

  predicate CarriesData(s: State, t: Thread) {
    var p := Prod(s, t);
    || (p.pc.Reblock? && t.Session? && p.off < |p.data|)
    || (p.pc.Entered? && t.Timer? && s.store.curr != [])
    || (p.pc.Entered? && t.Session?)
    || (p.pc.Reblock? && t.Session?)
    || p.pc.Leave?
  }

  lemma {:induction false} ShallowMovesNoData(s: State, t: Thread)
    requires Blocks(s) && Producing(t) && Shallow(Prod(s, t).pc) && !CarriesData(s, t)
    requires !s.timer.pc.Reblock?
    ensures SameData(s, StepProducer(s, t))
  {
    ProducerCases(Prod(s, t).pc);
  }

  lemma {:induction false} ShallowKeepsData(s: State, t: Thread)
    requires Inv(s) && Producing(t) && Shallow(Prod(s, t).pc)
    ensures Blocks(StepProducer(s, t)) && Conserved(StepProducer(s, t))
  {
    hide Locks, Drained, CopyIntoBlock, TakeCurrent, Flatten;
    var p := Prod(s, t);
    if p.pc.Reblock? && t.Session? && p.off < |p.data| {
      CopyKeepsSizes(s);
      CopyKeepsBytes(s);
    } else if p.pc.Entered? && t.Timer? && s.store.curr != [] {
      TakeCurrentKeeps(s);
    } else if !CarriesData(s, t) {
      ShallowMovesNoData(s, t);
      SameDataKeeps(s, StepProducer(s, t));
    }
  }

  lemma {:induction false} EndedKeepsLocks(s: State)
    requires Locks(s) && s.session.pc.Ended?
    ensures Locks(StepEnded(s, s.session.pc.stage))
  {
    EndCases(s.session.pc.stage);
  }

  lemma {:induction false} EndedKeepsPhases(s: State)
    requires Phases(s) && Drained(s) && s.session.pc.Ended?
    ensures Phases(StepEnded(s, s.session.pc.stage)) && Drained(StepEnded(s, s.session.pc.stage))
  {
    EndCases(s.session.pc.stage);
  }

  lemma {:induction false} EndedMovesNoData(s: State)
    requires s.session.pc.Ended?
    ensures SameData(s, StepEnded(s, s.session.pc.stage))
  {
    EndCases(s.session.pc.stage);
  }

  lemma EndedKeeps(s: State)
    requires Inv(s) && s.session.pc.Ended?
    ensures Inv(StepEnded(s, s.session.pc.stage))
  {
    EndedKeepsLocks(s);
    EndedKeepsPhases(s);
    EndedMovesNoData(s);
    SameDataKeeps(s, StepEnded(s, s.session.pc.stage));
  }

  lemma ProducerKeeps(s: State, t: Thread)
    requires Inv(s) && Producing(t)
    ensures Inv(StepProducer(s, t))
  {
    if Prod(s, t).pc.Ready? {
      ReadyKeeps(s, t);
    } else if Prod(s, t).pc.Ended? {
      EndedKeeps(s);
    } else {
      ShallowKeepsLocks(s, t);
      ShallowKeepsConditionLocks(s, t);
      ShallowKeepsPhases(s, t);
      ShallowKeepsData(s, t);
    }
  }

  // ------------------------------------------------------ steps of create

  lemma TakeFirstKeeps(s: State)
    requires Inv(s) && s.stream == Take(TakeHead) && s.store.queue != []
    ensures Blocks(TakeFirst(s)) && Conserved(TakeFirst(s))
  {
    var q := s.store.queue;
    assert s.store.taken == [];
    assert Flatten(q) == q[0] + Flatten(q[1..]);
    var s' := TakeFirst(s);
    assert InTransit(s'.store, s'.session.block, s'.timer.block) == InTransit(s.store, s.session.block, s.timer.block);
  }

  lemma DeliverKeeps(s: State)
    requires Inv(s) && s.stream == Take(Deliver)
    ensures Blocks(StepTake(s, Deliver)) && Conserved(StepTake(s, Deliver))
  {
    hide Flatten, Locks, Phases, Drained;
    var s' := StepTake(s, Deliver);
    assert s.store.taken + InTransit(s'.store, s'.session.block, s'.timer.block)
        == InTransit(s.store, s.session.block, s.timer.block);
  }

  lemma {:induction false} TakeKeepsLocks(s: State)
    requires Locks(s) && s.stream.Take?
    ensures
      var s' := StepTake(s, s.stream.take);
      && FlowOk(s'.mutexes.flow, s'.session.pc, s'.timer.pc, s'.stream)
      && QueueOk(s'.mutexes.queue, s'.session.pc, s'.timer.pc, s'.stream, s'.stopper)
  {
    TakeCases(s.stream.take);
  }

  lemma {:induction false} TakeKeepsConditionLocks(s: State)
    requires Locks(s) && s.stream.Take?
    ensures
      var s' := StepTake(s, s.stream.take);
      && NotFullOk(s'.mutexes.notFull, s'.session.pc, s'.timer.pc, s'.stream, s'.stopper)
      && NotEmptyOk(s'.mutexes.notEmpty, s'.session.pc, s'.timer.pc, s'.stream)
  {
    TakeCases(s.stream.take);
  }

  lemma {:induction false} TakeKeepsPhases(s: State)
    requires Phases(s) && s.stream.Take?
    ensures Phases(StepTake(s, s.stream.take)) && Drained(StepTake(s, s.stream.take))
  {
    TakeCases(s.stream.take);
  }

  lemma {:induction false} TakeMovesNoData(s: State)
    requires s.stream.Take? && !s.stream.take.Deliver? && !(s.stream.take.TakeHead? && s.store.queue != [])
    ensures SameData(s, StepTake(s, s.stream.take))
  {
    TakeCases(s.stream.take);
  }

  lemma TakeKeeps(s: State)
    requires Inv(s) && s.stream.Take?
    ensures Inv(StepTake(s, s.stream.take))
  {
    TakeKeepsLocks(s);
    TakeKeepsConditionLocks(s);
    TakeKeepsPhases(s);
    if s.stream.take.TakeHead? && s.store.queue != [] {
      TakeFirstKeeps(s);
    } else if s.stream.take.Deliver? {
      DeliverKeeps(s);
    } else {
      TakeMovesNoData(s);
      SameDataKeeps(s, StepTake(s, s.stream.take));
    }
  }

  lemma {:induction false} WaitKeepsLocks(s: State)
    requires Locks(s) && s.stream.Wait?
    ensures Locks(StepWait(s, s.stream.wait))
  {
    WaitCases(s.stream.wait);
  }

  lemma {:induction false} WaitKeepsPhases(s: State)
    requires Phases(s) && s.stream.Wait?
    ensures
      var s' := StepWait(s, s.stream.wait);
      Phases(s') && Drained(s') && SameData(s, s')
  {
    WaitCases(s.stream.wait);
  }

  lemma WaitKeeps(s: State)
    requires Inv(s) && s.stream.Wait?
    ensures Inv(StepWait(s, s.stream.wait))
  {
    WaitKeepsLocks(s);
    WaitKeepsPhases(s);
    SameDataKeeps(s, StepWait(s, s.stream.wait));
  }

  lemma PushCurrentKeeps(s: State)
    requires Inv(s) && s.stream == Eos(EosPushCurrent) && s.store.curr != []
    ensures Blocks(PushCurrent(s)) && Conserved(PushCurrent(s))
  {
    hide Locks, Drained;
    assert s.session.block == [] && s.timer.block == [];
  }

  lemma PushSoleKeeps(s: State)
    requires Inv(s) && s.stream == Eos(EosPushSole) && |s.store.queue| == 1
    ensures Blocks(PushSole(s)) && Conserved(PushSole(s))
  {
    var b := s.store.queue[0];
    assert s.store.queue == [b] && s.store.taken == [];
    FlattenSnoc([], b);
    assert Flatten(s.store.queue) == b;
    var s' := PushSole(s);
    assert b + InTransit(s'.store, s'.session.block, s'.timer.block) == InTransit(s.store, s.session.block, s.timer.block);
  }

  lemma {:induction false} EosKeepsLocks(s: State)
    requires Locks(s) && s.stream.Eos?
    ensures
      var s' := StepEos(s, s.stream.eos);
      && FlowOk(s'.mutexes.flow, s'.session.pc, s'.timer.pc, s'.stream)
      && QueueOk(s'.mutexes.queue, s'.session.pc, s'.timer.pc, s'.stream, s'.stopper)
  {
    EosCases(s.stream.eos);
  }

  lemma {:induction false} EosKeepsConditionLocks(s: State)
    requires Locks(s) && s.stream.Eos?
    ensures
      var s' := StepEos(s, s.stream.eos);
      && NotFullOk(s'.mutexes.notFull, s'.session.pc, s'.timer.pc, s'.stream, s'.stopper)
      && NotEmptyOk(s'.mutexes.notEmpty, s'.session.pc, s'.timer.pc, s'.stream)
  {
    EosCases(s.stream.eos);
  }

  lemma {:induction false} EosKeepsPhases(s: State)
    requires Phases(s) && s.stream.Eos?
    ensures Phases(StepEos(s, s.stream.eos))
  {
    EosCases(s.stream.eos);
  }

  lemma {:induction false} EosKeepsDrained(s: State)
    requires Inv(s) && s.stream.Eos?
    ensures Drained(StepEos(s, s.stream.eos))
  {
    hide Conserved, Flatten;
    EosCases(s.stream.eos);
  }

  lemma {:induction false} EosMovesNoData(s: State)
    requires s.stream.Eos? && (s.stream.eos.EosPushCurrent? ==> s.store.curr == [])
    requires s.stream.eos.EosPushSole? ==> |s.store.queue| != 1
    ensures SameData(s, StepEos(s, s.stream.eos))
  {
    EosCases(s.stream.eos);
  }

  lemma EosKeeps(s: State)
    requires Inv(s) && s.stream.Eos?
    ensures Inv(StepEos(s, s.stream.eos))
  {
    EosKeepsLocks(s);
    EosKeepsConditionLocks(s);
    EosKeepsPhases(s);
    EosKeepsDrained(s);
    if s.stream.eos.EosPushCurrent? && s.store.curr != [] {
      PushCurrentKeeps(s);
    } else if s.stream.eos.EosPushSole? && |s.store.queue| == 1 {
      PushSoleKeeps(s);
    } else {
      EosMovesNoData(s);
      SameDataKeeps(s, StepEos(s, s.stream.eos));
    }
  }

  // --------------------------------------------------- steps of the others

  lemma {:induction false} StopperKeepsLocks(s: State)
    requires Locks(s) && Phases(s) && Drained(s)
    ensures Locks(StepStopper(s))
  {
    StopCases(s.stopper);
  }

  lemma {:induction false} StopperKeepsPhases(s: State)
    requires Phases(s) && Drained(s)
    ensures Phases(StepStopper(s)) && Drained(StepStopper(s)) && SameData(s, StepStopper(s))
  {
    StopCases(s.stopper);
  }

  lemma {:induction false} EnvironmentKeepsLocks(s: State, a: Action)
    requires Locks(s) && !a.Step?
    ensures Locks(Next(s, a))
  {
    ActionCases(a);
  }

  lemma {:induction false} EnvironmentKeepsPhases(s: State, a: Action)
    requires Phases(s) && Drained(s) && !a.Step?
    ensures Phases(Next(s, a)) && Drained(Next(s, a))
  {
    ActionCases(a);
  }

  lemma {:induction false} EnvironmentMovesNoData(s: State, a: Action)
    requires Blocks(s) && !a.Step? && !a.Receive?
    ensures SameData(s, Next(s, a))
  {
    ActionCases(a);
  }

  lemma StreamKeeps(s: State)
    requires Inv(s)
    ensures Inv(StepStream(s))
  {
    hide Inv, StepTake, StepWait, StepEos;
    match s.stream
    case Downstream =>
    case Take(at) => TakeKeeps(s);
    case Wait(at) => WaitKeeps(s);
    case Eos(at) => EosKeeps(s);
  }

  lemma StopperKeeps(s: State)
    requires Inv(s)
    ensures Inv(StepStopper(s))
  {
    hide Locks, Phases, Drained, Blocks, Conserved, SameData, StepStopper;
    StopperKeepsLocks(s);
    StopperKeepsPhases(s);
    SameDataKeeps(s, StepStopper(s));
  }

  lemma ReceiveKeeps(s: State, data: seq<byte>)
    requires Inv(s) && s.session.pc.Outside?
    ensures Blocks(Call(s, data)) && Conserved(Call(s, data))
  {
    hide Flatten, Locks, Drained;
  }

  lemma EnvironmentKeeps(s: State, a: Action)
    requires Inv(s) && !a.Step?
    ensures Inv(Next(s, a))
  {
    hide Locks, Phases, Drained, Blocks, Conserved, SameData;
    EnvironmentKeepsLocks(s, a);
    EnvironmentKeepsPhases(s, a);
    if !a.Receive? {
      hide Next;
      EnvironmentMovesNoData(s, a);
      SameDataKeeps(s, Next(s, a));
    } else if s.session.pc.Outside? {
      ReceiveKeeps(s, a.data);
    }
  }

  lemma NextKeeps(s: State, a: Action)
    requires Inv(s)
    ensures Inv(Next(s, a))
  {
    hide Inv, StepProducer, StepStream, StepStopper;
    match a
    case Step(t) =>
      match t {
        case Stream => StreamKeeps(s);
        case Stopper => StopperKeeps(s);
        case _ => ProducerKeeps(s, t);
      }
    case _ => EnvironmentKeeps(s, a);
  }

  lemma {:induction false} RunKeeps(s: State, schedule: seq<Action>)
    requires Inv(s)
    ensures Inv(Run(s, schedule))
    decreases |schedule|
  {
    if schedule != [] {
      NextKeeps(s, schedule[0]);
      RunKeeps(Next(s, schedule[0]), schedule[1..]);
    }
  }
}
