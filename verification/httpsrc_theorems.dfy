/** The main results about the httpsrc threads: one lemma per promise, for every block size and schedule. */
module HttpSrcTheorems {
  import opened Bytes
  import opened HttpSrcThreads
  import opened HttpSrcSafety
  import opened HttpSrcWakeups
  import opened HttpSrcEndOfStream

  lemma EveryRun(blockSize: nat, schedule: seq<Action>)
    requires 0 < blockSize
    ensures AllInv(Run(Init(blockSize), schedule))
  {
    InitInv(blockSize);
    InitAwake(blockSize);
    RunKeepsAll(Init(blockSize), schedule);
  }

  /** While no stop flag is up, every byte curl handed over is downstream, on its way, or still to be copied,
      in order and exactly once. */
  lemma NothingIsLost(blockSize: nat, schedule: seq<Action>)
    requires 0 < blockSize
    ensures
      var s := Run(Init(blockSize), schedule);
      s.flags.stop.Off? ==>
        && s.session.off <= |s.session.data|
        && s.history.delivered + s.store.taken + Flatten(s.store.queue) + s.session.block + s.timer.block
           + s.store.curr + s.session.data[s.session.off..] == s.history.input
        && s.history.readPosition == |s.history.delivered|
  {
    hide Run, Locks, Drained, Awake, HandedOver, EosInv, Flatten;
    EveryRun(blockSize, schedule);
    var s := Run(Init(blockSize), schedule);
    if s.flags.stop.Off? {
      var q := s.store;
      assert s.history.dropped == 0 && s.history.disordered.Off?;
      assert s.history.delivered + q.taken + Flatten(q.queue) + s.session.block + s.timer.block + q.curr
          == s.history.delivered + InTransit(q, s.session.block, s.timer.block);
    }
  }

  /** The byte count is right, the queue never exceeds five blocks, and the current block always has room. */
  lemma BackPressure(blockSize: nat, schedule: seq<Action>)
    requires 0 < blockSize
    ensures
      var s := Run(Init(blockSize), schedule);
      && s.store.queuedBytes == |Flatten(s.store.queue)|
      && 0 <= s.store.queuedBytes <= 5 * blockSize
      && |s.store.curr| < blockSize
  {
    EveryRun(blockSize, schedule);
    RunKeepsBlockSize(Init(blockSize), schedule);
  }

  lemma {:induction false} NextKeepsBlockSize(s: State, a: Action)
    ensures Next(s, a).blockSize == s.blockSize
  {
  }

  lemma {:induction false} RunKeepsBlockSize(s: State, schedule: seq<Action>)
    ensures Run(s, schedule).blockSize == s.blockSize
    decreases |schedule|
  {
    if schedule != [] {
      NextKeepsBlockSize(s, schedule[0]);
      RunKeepsBlockSize(Next(s, schedule[0]), schedule[1..]);
    }
  }

  /** A thread asleep on a condition has reason to be, or the thread that will signal it is on its way. */
  lemma NoLostWakeups(blockSize: nat, schedule: seq<Action>)
    requires 0 < blockSize
    ensures
      var s := Run(Init(blockSize), schedule);
      var streamAsleep := s.stream == Wait(WaitAsleep);
      && (streamAsleep ==> s.store.queue == [] || WillSignal(s.session.pc) || WillSignal(s.timer.pc))
      && (streamAsleep && s.flags.started.Off? ==> WillSignalEnd(s.session.pc))
      && (AsleepAt(s.session.pc) || AsleepAt(s.timer.pc) ==>
            s.store.queuedBytes > 4 * s.blockSize || WillSignalRoom(s.stream))
      && !(streamAsleep && (AsleepAt(s.session.pc) || AsleepAt(s.timer.pc)))
  {
    EveryRun(blockSize, schedule);
  }

  /** Once gst_http_src_stop has signalled, no producer sleeps on not-full and none ever will. */
  lemma StopNeverMissesAProducer(blockSize: nat, schedule: seq<Action>)
    requires 0 < blockSize
    ensures
      var s := Run(Init(blockSize), schedule);
      StopSignalled(s.stopper) ==> s.flags.stop.On? && !Sleepy(s.session.pc) && !Sleepy(s.timer.pc)
  {
    EveryRun(blockSize, schedule);
  }

  // -------------------------------------------------- no deadlock while streaming

  /** No thread can take its next step. */
  predicate Stuck(s: State) {
    && Next(s, Step(Session)) == s && Next(s, Step(Timer)) == s
    && Next(s, Step(Stream)) == s && Next(s, Step(Stopper)) == s
  }

  lemma StuckFreesConditionLocks(s: State)
    requires Inv(s) && Stuck(s)
    ensures s.mutexes.notFull.Free? && s.mutexes.notEmpty.Free?
  {
    hide Conserved, Drained, Blocks, Enqueue, Drop;
  }

  /** Who holds the queue mutex needs at most a free condition mutex. */
  lemma HolderMoves(s: State, t: Thread)
    requires Inv(s) && Stuck(s) && Producing(t) && s.mutexes.notFull.Free? && s.mutexes.notEmpty.Free?
    ensures s.mutexes.queue != By(t)
  {
    hide Conserved, Drained, Blocks, Drop;
  }

  lemma StreamHolderMoves(s: State)
    requires Inv(s) && Stuck(s) && s.mutexes.notFull.Free? && s.mutexes.notEmpty.Free?
    ensures !s.mutexes.queue.ByStream?
  {
    hide Conserved, Drained, Blocks, Phases, StepProducer, StepStopper;
  }

  lemma StopperHolderMoves(s: State)
    requires Inv(s) && Stuck(s) && s.mutexes.notFull.Free?
    ensures !s.mutexes.queue.ByStopper?
  {
    hide Conserved, Drained, Blocks, Phases, StepProducer, StepStream;
  }

  lemma StuckFreesQueueLock(s: State)
    requires Inv(s) && Stuck(s)
    ensures s.mutexes.queue.Free?
  {
    StuckFreesConditionLocks(s);
    hide Conserved, Drained, Blocks, Stuck, Inv;
    if s.mutexes.queue.BySession? {
      HolderMoves(s, Session);
    } else if s.mutexes.queue.ByTimer? {
      HolderMoves(s, Timer);
    } else if s.mutexes.queue.ByStream? {
      StreamHolderMoves(s);
    } else if s.mutexes.queue.ByStopper? {
      StopperHolderMoves(s);
    }
  }

  lemma StuckInsideIsAsleep(s: State, t: Thread)
    requires Inv(s) && Stuck(s) && Producing(t) && FlowAt(Prod(s, t).pc)
    ensures AsleepAt(Prod(s, t).pc)
  {
    StuckFreesQueueLock(s);
    StuckFreesConditionLocks(s);
    if t.Session? && s.session.pc.Reblock? && s.session.off < |s.session.data| {
      CopyKeepsSizes(s);
    }
  }

  /** While the stop flag is down the threads can only all be stuck if downstream does not pull, if create() has
      returned an error, or if create() sleeps, the queue is empty and no producer is inside: then it waits for
      data, or, once the session is over, for a signal that may never come (see HttpSrcUnreported). */
  lemma StreamingNeverDeadlocks(blockSize: nat, schedule: seq<Action>)
    requires 0 < blockSize
    ensures
      var s := Run(Init(blockSize), schedule);
      s.flags.stop.Off? && Stuck(s) ==>
        || s.stream.Downstream?
        || (s.stream == Eos(EosDone) && s.flags.failed.On?)
        || (s.stream == Wait(WaitAsleep) && s.store.queue == [] && s.timer.pc.Outside?
            && (s.session.pc.Outside? || s.session.pc == Ended(EndJoin)))
  {
    EveryRun(blockSize, schedule);
    var s := Run(Init(blockSize), schedule);
    if s.flags.stop.Off? && Stuck(s) {
      StuckFreesQueueLock(s);
      StuckFreesConditionLocks(s);
      if s.stream == Wait(WaitAsleep) {
        assert s.store.queue == [] && s.store.queuedBytes == 0;
        assert !FlowAt(s.session.pc) && !FlowAt(s.timer.pc) by {
          if FlowAt(s.session.pc) { StuckInsideIsAsleep(s, Session); }
          if FlowAt(s.timer.pc) { StuckInsideIsAsleep(s, Timer); }
        }
      }
    }
  }

  // ----------------------------------------------------------- end of stream

  /** The session ended normally, create() left through the empty-queue check and is done, nobody asked for a stop:
      everything was delivered if and only if no producer that had slept on not-full was still short of its stop
      check when create() raised the flag. */
  lemma EndOfStreamIsComplete(blockSize: nat, schedule: seq<Action>)
    requires 0 < blockSize
    ensures
      var s := Run(Init(blockSize), schedule);
      var h := s.history;
      s.stream == Eos(EosDone) && h.exitedEmpty.On? && h.ending.Normal? && h.stopCalled.Off? ==>
        (h.delivered == h.input <==> h.staleWaiter.Off?)
  {
    EveryRun(blockSize, schedule);
    var s := Run(Init(blockSize), schedule);
    var h := s.history;
    if s.stream == Eos(EosDone) && Clean(h) {
      assert InTransit(s.store, s.session.block, s.timer.block) == [];
      assert s.session.data[s.session.off..] == [];
      assert h.accepted == h.input;
    }
  }
}
