/**
 Three schedules of the httpsrc threads that end badly, as concrete runs with
 blocks of two bytes. The server sends eleven bytes, or none in the third, and
 closes the connection normally, and nobody asks for a stop.
*/
module HttpSrcRaces {
  import opened Bytes
  import opened HttpSrcThreads
  import opened HttpSrcTheorems
  import HttpSrcUnreported

  /** Some schedule leads from s to t. */
  ghost predicate Leads(s: State, t: State) {
    exists schedule :: Run(s, schedule) == t
  }

  /** n steps of one thread. */
  function Turns(s: State, t: Thread, n: nat): State
    decreases n
  {
    if n == 0 then s else
    Turns(match t
          case Session => StepProducer(s, Session)
          case Timer => StepProducer(s, Timer)
          case Stream => StepStream(s)
          case Stopper => StepStopper(s), t, n - 1)
  }

  lemma {:induction false} RunAppend(s: State, a: seq<Action>, b: seq<Action>)
    ensures Run(s, a + b) == Run(Run(s, a), b)
    decreases |a|
  {
    if a == [] {
      assert a + b == b;
    } else {
      assert (a + b)[1..] == a[1..] + b;
      RunAppend(Next(s, a[0]), a[1..], b);
    }
  }

  lemma LeadsOn(s: State, t: State, u: State)
    requires Leads(s, t) && Leads(t, u)
    ensures Leads(s, u)
  {
    var a :| Run(s, a) == t;
    var b :| Run(t, b) == u;
    RunAppend(s, a, b);
  }

  lemma ActionLeads(s: State, a: Action)
    ensures Leads(s, Next(s, a))
  {
    assert [a][1..] == [];
    assert Run(s, [a]) == Next(s, a);
  }

  lemma {:induction false} TurnsLead(s: State, t: Thread, n: nat)
    ensures Leads(s, Turns(s, t, n))
    decreases n
  {
    if n == 0 {
      assert Run(s, []) == s;
    } else {
      ActionLeads(s, Step(t));
      TurnsLead(Next(s, Step(t)), t, n - 1);
      LeadsOn(s, Next(s, Step(t)), Turns(s, t, n));
    }
  }

  const DATA: seq<byte> := [1, 2, 3, 4, 5, 6, 7, 8, 9, 10, 11]

  /** The session thread has queued the next two bytes. */
  function BlockQueued(s: State): State
    requires s.session.off + 2 <= |s.session.data|
  {
    var p := s.session;
    var b := p.data[p.off..p.off + 2];
    s.(store := s.store.(queue := s.store.queue + [b], queuedBytes := s.store.queuedBytes + 2),
       session := p.(off := p.off + 2),
       history := s.history.(accepted := s.history.accepted + b))
  }

  predicate CanQueue(s: State) {
    && s.blockSize == 2 && s.session.pc.Reblock? && s.session.block == [] && s.store.curr == []
    && s.session.off + 2 <= |s.session.data|
    && s.mutexes.queue.Free? && s.mutexes.notEmpty.Free? && s.store.queuedBytes <= 8
  }

  lemma FirstBlock(s: State)
    requires CanQueue(s) && s.store.queue == []
    ensures Leads(s, WakeStream(BlockQueued(s)))
  {
    hide Leads, Run;
    var s1 := StepProducer(s, Session);
    assert s1.session.block == s.session.data[s.session.off..s.session.off + 2];
    var s2 := StepProducer(s1, Session);
    var s3 := StepProducer(s2, Session);
    var s4 := StepProducer(s3, Session);
    var s5 := StepProducer(s4, Session);
    var s6 := StepProducer(s5, Session);
    var s7 := StepProducer(s6, Session);
    assert Turns(s, Session, 7) == Turns(s1, Session, 6) == Turns(s2, Session, 5) == Turns(s3, Session, 4)
        == Turns(s4, Session, 3) == Turns(s5, Session, 2) == Turns(s6, Session, 1) == s7;
    TurnsLead(s, Session, 7);
  }

  lemma NextBlock(s: State)
    requires CanQueue(s) && s.store.queue != []
    ensures Leads(s, BlockQueued(s))
  {
    hide Leads, Run;
    var s1 := StepProducer(s, Session);
    assert s1.session.block == s.session.data[s.session.off..s.session.off + 2];
    var s2 := StepProducer(s1, Session);
    var s3 := StepProducer(s2, Session);
    var s4 := StepProducer(s3, Session);
    assert Turns(s, Session, 4) == Turns(s1, Session, 3) == Turns(s2, Session, 2) == Turns(s3, Session, 1) == s4;
    TurnsLead(s, Session, 4);
  }

  function LastByteKept(s: State): State
    requires s.session.off <= |s.session.data|
  {
    var rest := s.session.data[s.session.off..];
    s.(store := s.store.(curr := rest), session := NobodyInside, mutexes := s.mutexes.(flow := Free),
       history := s.history.(accepted := s.history.accepted + rest))
  }

  /** The last byte stays in the current block and the thread leaves data_received. */
  lemma LastByte(s: State)
    requires s.blockSize == 2 && s.session.pc.Reblock? && s.session.block == [] && s.store.curr == []
    requires s.session.off + 1 == |s.session.data|
    ensures Leads(s, LastByteKept(s))
  {
    hide Leads, Run;
    var s1 := StepProducer(s, Session);
    assert s1.store.curr == s.session.data[s.session.off..];
    assert s.session.data[s.session.off..s.session.off + 1] == s.session.data[s.session.off..];
    var s2 := StepProducer(s1, Session);
    var s3 := StepProducer(s2, Session);
    assert Turns(s, Session, 3) == Turns(s1, Session, 2) == Turns(s2, Session, 1) == s3;
    TurnsLead(s, Session, 3);
  }

  /** Nothing received, nobody inside, create() outside or asleep. */
  function Quiet(stream: StreamPc): State { Init(2).(stream := stream) }

  const BLOCKS: seq<seq<byte>> := [[1, 2], [3, 4], [5, 6], [7, 8], [9, 10]]

  /** The session thread inside data_received with k blocks queued. */
  function Filling(k: nat, stream: StreamPc): State
    requires k <= 5
  {
    var h := Init(2).history;
    Quiet(stream).(store := Store(BLOCKS[..k], 2 * k, [], []), mutexes := Mutexes(BySession, Free, Free, Free),
                   session := Producer(Reblock, DATA, 2 * k, []),
                   history := h.(input := DATA, accepted := DATA[..2 * k]))
  }

  /** Five blocks queued, one byte in the current block, nobody inside. */
  function Full(stream: StreamPc): State {
    var h := Init(2).history;
    Quiet(stream).(store := Store(BLOCKS, 10, [11], []), history := h.(input := DATA, accepted := DATA))
  }

  lemma BlockAfterBlock(k: nat)
    requires k < 5
    ensures BLOCKS[..k] + [DATA[2 * k..2 * k + 2]] == BLOCKS[..k + 1]
    ensures DATA[..2 * k] + DATA[2 * k..2 * k + 2] == DATA[..2 * (k + 1)]
  {
    assert DATA[2 * k..2 * k + 2] == [DATA[2 * k], DATA[2 * k + 1]] == BLOCKS[k];
  }

  lemma FillOne(k: nat, stream: StreamPc)
    requires k < 5 && (stream == Downstream || stream == Wait(WaitAsleep) || stream == Wait(WaitWoken))
    ensures Leads(Filling(k, stream), Filling(k + 1, if k == 0 then WakeStream(Quiet(stream)).stream else stream))
  {
    hide Leads, Run;
    BlockAfterBlock(k);
    if k == 0 {
      FirstBlock(Filling(0, stream));
    } else {
      NextBlock(Filling(k, stream));
    }
  }

  lemma FillRest(k: nat, stream: StreamPc)
    requires 1 <= k <= 5 && (stream == Downstream || stream == Wait(WaitWoken))
    ensures Leads(Filling(k, stream), Full(stream))
    decreases 5 - k
  {
    hide Leads, Run;
    if k == 5 {
      assert DATA[..10] + DATA[10..] == DATA && BLOCKS[..5] == BLOCKS;
      LastByte(Filling(5, stream));
    } else {
      FillOne(k, stream);
      FillRest(k + 1, stream);
      LeadsOn(Filling(k, stream), Filling(k + 1, stream), Full(stream));
    }
  }

  lemma Enter(stream: StreamPc)
    ensures Leads(Quiet(stream), Filling(0, stream))
  {
    hide Leads, Run;
    var s0 := Next(Quiet(stream), Receive(DATA));
    ActionLeads(Quiet(stream), Receive(DATA));
    assert Turns(s0, Session, 2) == Turns(StepProducer(s0, Session), Session, 1);
    assert DATA[..0] == [];
    TurnsLead(s0, Session, 2);
    LeadsOn(Quiet(stream), s0, Filling(0, stream));
  }

  /** curl hands over the eleven bytes and the session thread runs undisturbed. */
  lemma Fill(stream: StreamPc)
    requires stream == Downstream || stream == Wait(WaitAsleep)
    ensures Leads(Quiet(stream), Full(if stream.Wait? then Wait(WaitWoken) else stream))
  {
    hide Leads, Run;
    var after := if stream.Wait? then Wait(WaitWoken) else stream;
    Enter(stream);
    FillOne(0, stream);
    FillRest(1, after);
    LeadsOn(Quiet(stream), Filling(0, stream), Filling(1, after));
    LeadsOn(Quiet(stream), Filling(1, after), Full(after));
  }

  // ----------------------------------- first run: the last block is freed

  /** The timer has taken the last byte and sleeps on not-full; the session has ended normally. */
  function SleepsOnFull(stream: StreamPc): State {
    var f := Full(stream);
    f.(store := f.store.(curr := []), flags := f.flags.(paused := On), mutexes := f.mutexes.(flow := ByTimer),
       session := NobodyInside.(pc := Ended(EndWantFlow)), timer := Producer(Ready(Asleep), [], 0, [11]),
       history := f.history.(ending := Normal))
  }

  lemma TimerFallsAsleep()
    ensures Leads(Full(Downstream), SleepsOnFull(Downstream))
  {
    hide Leads, Run;
    var s0 := Next(Full(Downstream), Expire);
    ActionLeads(Full(Downstream), Expire);
    var s1 := StepProducer(s0, Timer);
    var s2 := StepProducer(s1, Timer);
    assert s2.timer == Producer(Ready(WantQueue), [], 0, [11]);
    var s3 := StepProducer(s2, Timer);
    var s4 := StepProducer(s3, Timer);
    assert s4.timer.pc == Ready(WantNotFull);
    var s5 := StepProducer(s4, Timer);
    var s6 := StepProducer(s5, Timer);
    var s7 := StepProducer(s6, Timer);
    assert Turns(s0, Timer, 7) == Turns(s1, Timer, 6) == Turns(s2, Timer, 5) == Turns(s3, Timer, 4)
        == Turns(s4, Timer, 3) == Turns(s5, Timer, 2) == Turns(s6, Timer, 1) == s7;
    TurnsLead(s0, Timer, 7);
    LeadsOn(Full(Downstream), s0, s7);
    ActionLeads(s7, EndSession(Normal));
    LeadsOn(Full(Downstream), s7, Next(s7, EndSession(Normal)));
  }

  /** create() has delivered k of the five blocks and woken the timer; the timer has not run since. */
  function Delivered(k: nat): State
    requires 1 <= k <= 5
  {
    var f := SleepsOnFull(Downstream);
    f.(store := Store(BLOCKS[k..], 10 - 2 * k, [], []), timer := f.timer.(pc := Ready(Woken)),
       history := f.history.(delivered := DATA[..2 * k], readPosition := 2 * k))
  }

  /** create() has taken the first block off the full queue. */
  lemma TakesFirst()
    ensures var s := Next(SleepsOnFull(Downstream), CallCreate);
      Turns(s, Stream, 2) == s.(stream := Take(SigWantNotFull), store := Store(BLOCKS[1..], 8, [], [1, 2]),
                                mutexes := s.mutexes.(queue := ByStream))
  {
    var s0 := Next(SleepsOnFull(Downstream), CallCreate);
    var s1 := StepStream(s0);
    assert Turns(s0, Stream, 2) == Turns(s1, Stream, 1) == StepStream(s1);
  }

  lemma HandsOutFirst()
    ensures Turns(Turns(Next(SleepsOnFull(Downstream), CallCreate), Stream, 2), Stream, 5) == Delivered(1)
  {
    TakesFirst();
    var s2 := Turns(Next(SleepsOnFull(Downstream), CallCreate), Stream, 2);
    var s3 := StepStream(s2);
    var s4 := StepStream(s3);
    var s5 := StepStream(s4);
    assert s5.timer.pc == Ready(Woken);
    var s6 := StepStream(s5);
    var s7 := StepStream(s6);
    assert Turns(s2, Stream, 5) == Turns(s3, Stream, 4) == Turns(s4, Stream, 3) == Turns(s5, Stream, 2)
        == Turns(s6, Stream, 1) == s7;
    assert DATA[..2] == [1, 2];
  }

  lemma DeliverFirst()
    ensures Leads(SleepsOnFull(Downstream), Delivered(1))
  {
    hide Leads, Run, Turns, Next, SleepsOnFull, Delivered;
    var f := SleepsOnFull(Downstream);
    var s0 := Next(f, CallCreate);
    HandsOutFirst();
    ActionLeads(f, CallCreate);
    TurnsLead(s0, Stream, 2);
    LeadsOn(f, s0, Turns(s0, Stream, 2));
    TurnsLead(Turns(s0, Stream, 2), Stream, 5);
    LeadsOn(f, Turns(s0, Stream, 2), Delivered(1));
  }

  /** Later blocks leave a queue that is not full: nobody is signalled. */
  lemma TakesNext(k: nat)
    requires 1 <= k < 5
    ensures var s := Next(Delivered(k), CallCreate);
      Turns(s, Stream, 2) == s.(stream := Take(TakeGiveQueue), mutexes := s.mutexes.(queue := ByStream),
                                store := Store(BLOCKS[k + 1..], 8 - 2 * k, [], DATA[2 * k..2 * k + 2]))
  {
    var s0 := Next(Delivered(k), CallCreate);
    var s1 := StepStream(s0);
    assert DATA[2 * k..2 * k + 2] == [DATA[2 * k], DATA[2 * k + 1]] == BLOCKS[k];
    assert BLOCKS[k..][0] == BLOCKS[k] && BLOCKS[k..][1..] == BLOCKS[k + 1..];
    assert Turns(s0, Stream, 2) == Turns(s1, Stream, 1) == StepStream(s1);
  }

  lemma HandsOutNext(k: nat)
    requires 1 <= k < 5
    ensures Turns(Turns(Next(Delivered(k), CallCreate), Stream, 2), Stream, 2) == Delivered(k + 1)
  {
    TakesNext(k);
    BlockAfterBlock(k);
    hide DATA, BLOCKS;
    var s2 := Turns(Next(Delivered(k), CallCreate), Stream, 2);
    var s3 := StepStream(s2);
    assert Turns(s2, Stream, 2) == Turns(s3, Stream, 1) == StepStream(s3);
  }

  lemma DeliverNext(k: nat)
    requires 1 <= k < 5
    ensures Leads(Delivered(k), Delivered(k + 1))
  {
    hide Leads, Run, Turns, Next, Delivered;
    var f := Delivered(k);
    var s0 := Next(f, CallCreate);
    HandsOutNext(k);
    ActionLeads(f, CallCreate);
    TurnsLead(s0, Stream, 2);
    LeadsOn(f, s0, Turns(s0, Stream, 2));
    TurnsLead(Turns(s0, Stream, 2), Stream, 2);
    LeadsOn(f, Turns(s0, Stream, 2), Delivered(k + 1));
  }

  lemma DeliverRest(k: nat)
    requires 1 <= k <= 5
    ensures Leads(Delivered(k), Delivered(5))
    decreases 5 - k
  {
    hide Leads, Run;
    if k == 5 {
      TurnsLead(Delivered(5), Stream, 0);
    } else {
      DeliverNext(k);
      DeliverRest(k + 1);
      LeadsOn(Delivered(k), Delivered(k + 1), Delivered(5));
    }
  }

  /** create() has found the queue empty, raised the stop flag, signalled, and wants flowTimerMutex. */
  function FlagUp(): State {
    var d := Delivered(5);
    d.(store := Store([], 0, [], []), stream := Eos(EosWantFlow), flags := d.flags.(stop := On),
       history := d.history.(exitedEmpty := On, staleWaiter := On))
  }

  /** create() has found the queue empty and is about to raise the flag. */
  function Raising(): State {
    var d := Delivered(5);
    d.(store := Store([], 0, [], []), stream := Eos(EosSetStop), mutexes := d.mutexes.(notFull := ByStream),
       history := d.history.(exitedEmpty := On))
  }

  lemma FindEmpty()
    ensures Leads(Delivered(5), Raising())
  {
    hide Leads, Run;
    var d := Delivered(5);
    assert BLOCKS[5..] == [];
    var s0 := Next(d, CallCreate);
    ActionLeads(d, CallCreate);
    var s1 := StepStream(s0);
    var s2 := StepStream(s1);
    assert s2.stream == Eos(EosStart);
    var s3 := StepStream(s2);
    var s4 := StepStream(s3);
    assert s4.stream == Eos(EosWantNotFull);
    var s5 := StepStream(s4);
    assert Turns(s0, Stream, 6) == Turns(s1, Stream, 5) == Turns(s2, Stream, 4) == Turns(s3, Stream, 3)
        == Turns(s4, Stream, 2) == Turns(s5, Stream, 1) == StepStream(s5) == Raising();
    TurnsLead(s0, Stream, 6);
    LeadsOn(d, s0, Raising());
  }

  lemma RaiseFlag()
    ensures Leads(Raising(), FlagUp())
  {
    hide Leads, Run;
    var s0 := Raising();
    var s1 := StepStream(s0);
    var s2 := StepStream(s1);
    assert s2.stream == Eos(EosGiveNotFull);
    assert Turns(s0, Stream, 3) == Turns(s1, Stream, 2) == Turns(s2, Stream, 1) == StepStream(s2) == FlagUp();
    TurnsLead(s0, Stream, 3);
  }

  /** The timer has freed the last block and left data_received. */
  function Freed(): State {
    var f := FlagUp();
    f.(timer := NobodyInside, mutexes := f.mutexes.(flow := Free), history := f.history.(dropped := 1))
  }

  lemma TimerFreesBlock()
    ensures Leads(FlagUp(), Freed())
  {
    hide Leads, Run;
    var s0 := FlagUp();
    var s1 := StepProducer(s0, Timer);
    var s2 := StepProducer(s1, Timer);
    var s3 := StepProducer(s2, Timer);
    assert s3.timer.pc == Ready(Refused);
    var s4 := StepProducer(s3, Timer);
    var s5 := StepProducer(s4, Timer);
    assert Turns(s0, Timer, 5) == Turns(s1, Timer, 4) == Turns(s2, Timer, 3) == Turns(s3, Timer, 2)
        == Turns(s4, Timer, 1) == s5;
    TurnsLead(s0, Timer, 5);
  }

  lemma CreateFindsNothing()
    ensures Leads(Freed(), Freed().(stream := Eos(EosWantQueueAgain)))
  {
    hide Leads, Run;
    var s0 := Freed();
    var s1 := StepStream(s0);
    var s2 := StepStream(s1);
    assert s2.stream == Eos(EosGiveFlow);
    var s3 := StepStream(s2);
    assert Turns(s0, Stream, 3) == Turns(s1, Stream, 2) == Turns(s2, Stream, 1) == s3;
    TurnsLead(s0, Stream, 3);
  }

  lemma CreateFinishes()
    ensures Leads(Freed().(stream := Eos(EosWantQueueAgain)), Freed().(stream := Eos(EosDone)))
  {
    hide Leads, Run;
    var s0 := Freed().(stream := Eos(EosWantQueueAgain));
    var s1 := StepStream(s0);
    var s2 := StepStream(s1);
    assert s2.stream == Eos(EosGiveQueueAgain);
    var s3 := StepStream(s2);
    assert Turns(s0, Stream, 3) == Turns(s1, Stream, 2) == Turns(s2, Stream, 1) == s3;
    TurnsLead(s0, Stream, 3);
  }

  lemma LostAtTheEnd(s: State)
    requires s == Freed().(stream := Eos(EosDone))
    ensures
      var h := s.history;
      && h.exitedEmpty.On? && h.ending.Normal? && h.stopCalled.Off? && h.input == DATA && h.delivered == DATA[..10]
  {
  }

  /** A run in which the session ends normally, create() leaves through the empty-queue check, nobody asks for a
      stop, and the last byte received is never delivered. */
  lemma LastBlockCanBeLost()
    ensures exists schedule ::
      var s := Run(Init(2), schedule);
      var h := s.history;
      && s.stream == Eos(EosDone) && h.exitedEmpty.On? && h.ending.Normal? && h.stopCalled.Off?
      && h.input == DATA && h.delivered == DATA[..10]
  {
    var done := Freed().(stream := Eos(EosDone));
    LostAtTheEnd(done);
    assert Quiet(Downstream) == Init(2);
    hide Freed, FlagUp, Raising, Delivered, SleepsOnFull, Full, Quiet, Init;
    Fill(Downstream);
    TimerFallsAsleep();
    LeadsOn(Init(2), Full(Downstream), SleepsOnFull(Downstream));
    DeliverFirst();
    DeliverRest(1);
    LeadsOn(Init(2), SleepsOnFull(Downstream), Delivered(1));
    LeadsOn(Init(2), Delivered(1), Delivered(5));
    FindEmpty();
    RaiseFlag();
    TimerFreesBlock();
    CreateFindsNothing();
    CreateFinishes();
    LeadsOn(Init(2), Delivered(5), Raising());
    LeadsOn(Init(2), Raising(), FlagUp());
    LeadsOn(Init(2), FlagUp(), Freed());
    LeadsOn(Init(2), Freed(), Freed().(stream := Eos(EosWantQueueAgain)));
    LeadsOn(Init(2), Freed().(stream := Eos(EosWantQueueAgain)), done);
    var schedule :| Run(Init(2), schedule) == done;
  }

  // ------------------------------ second run: everybody waits for ever

  lemma StreamFallsAsleep()
    ensures Leads(Init(2), Quiet(Wait(WaitAsleep)))
  {
    hide Leads, Run;
    var s0 := Next(Init(2), CallCreate);
    ActionLeads(Init(2), CallCreate);
    var s1 := StepStream(s0);
    var s2 := StepStream(s1);
    var s3 := StepStream(s2);
    var s4 := StepStream(s3);
    var s5 := StepStream(s4);
    assert Turns(s0, Stream, 5) == Turns(s1, Stream, 4) == Turns(s2, Stream, 3) == Turns(s3, Stream, 2)
        == Turns(s4, Stream, 1) == s5;
    TurnsLead(s0, Stream, 5);
    LeadsOn(Init(2), s0, s5);
  }

  /** The session has ended and joins the timer; the timer has the last byte and wants queueMutex;
      create() was woken with five blocks queued. */
  function Ending(): State {
    var f := Full(Wait(WaitWoken));
    f.(store := f.store.(curr := []), flags := f.flags.(paused := On), mutexes := f.mutexes.(flow := ByTimer),
       session := NobodyInside.(pc := Ended(EndJoin)), timer := Producer(Ready(WantQueue), [], 0, [11]),
       history := f.history.(ending := Normal))
  }

  lemma SessionEnds()
    ensures Leads(Full(Wait(WaitWoken)), Ending())
  {
    hide Leads, Run;
    var f := Full(Wait(WaitWoken));
    var s0 := Next(f, EndSession(Normal));
    ActionLeads(f, EndSession(Normal));
    var s1 := StepProducer(s0, Session);
    var s2 := StepProducer(s1, Session);
    assert Turns(s0, Session, 2) == Turns(s1, Session, 1) == s2;
    TurnsLead(s0, Session, 2);
    LeadsOn(f, s0, s2);
    var s3 := Next(s2, Expire);
    ActionLeads(s2, Expire);
    LeadsOn(f, s2, s3);
    var s4 := StepProducer(s3, Timer);
    var s5 := StepProducer(s4, Timer);
    assert Turns(s3, Timer, 2) == Turns(s4, Timer, 1) == s5;
    TurnsLead(s3, Timer, 2);
    LeadsOn(f, s3, s5);
  }

  /** create() holds the not-full mutex and has given queueMutex back; the flag is still down. */
  function HandingOver(): State {
    var e := Ending();
    e.(stream := Eos(EosSetStop), mutexes := e.mutexes.(notFull := ByStream))
  }

  lemma CreateHandsOver()
    ensures Leads(Ending(), HandingOver())
  {
    hide Leads, Run;
    var s0 := Ending();
    var s1 := StepStream(s0);
    var s2 := StepStream(s1);
    var s3 := StepStream(s2);
    assert s3.stream == Eos(EosStart);
    var s4 := StepStream(s3);
    var s5 := StepStream(s4);
    var s6 := StepStream(s5);
    var s7 := StepStream(s6);
    assert Turns(s0, Stream, 7) == Turns(s1, Stream, 6) == Turns(s2, Stream, 5) == Turns(s3, Stream, 4)
        == Turns(s4, Stream, 3) == Turns(s5, Stream, 2) == Turns(s6, Stream, 1) == s7;
    TurnsLead(s0, Stream, 7);
  }

  /** The timer slipped in between, create() signalled nobody, and then the timer went to sleep. */
  function Locked(): State {
    var e := Ending();
    e.(stream := Eos(EosWantFlow), flags := e.flags.(stop := On), timer := e.timer.(pc := Ready(Asleep)),
       history := e.history.(lateSleeper := On))
  }

  /** The timer has passed the not-full test and the stop test. */
  function Between(): State {
    var h := HandingOver();
    h.(timer := h.timer.(pc := Ready(WantNotFull)), mutexes := h.mutexes.(queue := ByTimer))
  }

  lemma TimerPassesTests()
    ensures Leads(HandingOver(), Between())
  {
    hide Leads, Run;
    var s0 := HandingOver();
    var s1 := StepProducer(s0, Timer);
    assert Turns(s0, Timer, 2) == Turns(s1, Timer, 1) == StepProducer(s1, Timer) == Between();
    TurnsLead(s0, Timer, 2);
  }

  /** create() has raised the flag and signalled nobody. */
  function Signalled(): State {
    var b := Between();
    b.(stream := Eos(EosWantFlow), flags := b.flags.(stop := On), mutexes := b.mutexes.(notFull := Free),
       history := b.history.(lateSleeper := On))
  }

  lemma CreateSignalsNobody()
    ensures Leads(Between(), Signalled())
  {
    hide Leads, Run;
    var s0 := Between();
    var s1 := StepStream(s0);
    var s2 := StepStream(s1);
    assert s2.stream == Eos(EosGiveNotFull) && s2.timer.pc == Ready(WantNotFull);
    assert Turns(s0, Stream, 3) == Turns(s1, Stream, 2) == Turns(s2, Stream, 1) == StepStream(s2) == Signalled();
    TurnsLead(s0, Stream, 3);
  }

  lemma TimerSleepsTooLate()
    ensures Leads(Signalled(), Locked())
  {
    hide Leads, Run;
    var s0 := Signalled();
    var s1 := StepProducer(s0, Timer);
    var s2 := StepProducer(s1, Timer);
    assert s2.timer.pc == Ready(FallAsleep);
    assert Turns(s0, Timer, 3) == Turns(s1, Timer, 2) == Turns(s2, Timer, 1) == StepProducer(s2, Timer) == Locked();
    TurnsLead(s0, Timer, 3);
  }

  lemma LockedIsStuck()
    ensures Stuck(Locked())
    ensures var s := Locked(); s.history.ending.Normal? && s.history.stopCalled.Off? && |s.store.queue| == 5
  {
  }

  /** A run in which the session ends normally, nobody asks for a stop, five blocks are still queued, and no
      thread can take its next step: create() raises its flag after giving queueMutex back. */
  lemma EndOfStreamCanDeadlock()
    ensures exists schedule ::
      var s := Run(Init(2), schedule);
      Stuck(s) && s.history.ending.Normal? && s.history.stopCalled.Off? && |s.store.queue| == 5
  {
    LockedIsStuck();
    hide Stuck, Locked, Signalled, Between, HandingOver, Ending, Full, Quiet, Init;
    StreamFallsAsleep();
    Fill(Wait(WaitAsleep));
    LeadsOn(Init(2), Quiet(Wait(WaitAsleep)), Full(Wait(WaitWoken)));
    SessionEnds();
    CreateHandsOver();
    TimerPassesTests();
    CreateSignalsNobody();
    TimerSleepsTooLate();
    LeadsOn(Init(2), Full(Wait(WaitWoken)), Ending());
    LeadsOn(Init(2), Ending(), HandingOver());
    LeadsOn(Init(2), HandingOver(), Between());
    LeadsOn(Init(2), Between(), Signalled());
    LeadsOn(Init(2), Signalled(), Locked());
    var schedule :| Run(Init(2), schedule) == Locked();
  }

  // -------------------------- third run: the end that create() sleeps through

  /** The session has ended and joins the timer; create() was asleep all the time. */
  function SleptThrough(): State {
    var q := Quiet(Wait(WaitAsleep));
    q.(flags := q.flags.(paused := On), session := NobodyInside.(pc := Ended(EndJoin)),
       history := q.history.(ending := Normal))
  }

  lemma SessionEndsUnnoticed()
    ensures Leads(Quiet(Wait(WaitAsleep)), SleptThrough())
  {
    hide Leads, Run;
    var q := Quiet(Wait(WaitAsleep));
    var s0 := Next(q, EndSession(Normal));
    ActionLeads(q, EndSession(Normal));
    var s1 := StepProducer(s0, Session);
    assert Turns(s0, Session, 2) == Turns(s1, Session, 1) == StepProducer(s1, Session) == SleptThrough();
    TurnsLead(s0, Session, 2);
    LeadsOn(q, s0, SleptThrough());
  }

  lemma SleptThroughIsStuck()
    ensures var s := SleptThrough();
      && Stuck(s) && HttpSrcUnreported.Unreported(s) && s.history.delivered == s.history.input
      && s.history.ending.Normal? && s.history.stopCalled.Off?
  {
  }

  /** A run in which the session ends normally, everything received is delivered, nobody asks for a stop, and create()
      sleeps on without reporting the end. */
  lemma EndCanGoUnreported()
    ensures exists schedule ::
      var s := Run(Init(2), schedule);
      && Stuck(s) && HttpSrcUnreported.Unreported(s) && s.history.delivered == s.history.input
      && s.history.ending.Normal? && s.history.stopCalled.Off?
  {
    SleptThroughIsStuck();
    hide Stuck, SleptThrough, Quiet, Init;
    StreamFallsAsleep();
    SessionEndsUnnoticed();
    LeadsOn(Init(2), Quiet(Wait(WaitAsleep)), SleptThrough());
    var schedule :| Run(Init(2), schedule) == SleptThrough();
  }
}
