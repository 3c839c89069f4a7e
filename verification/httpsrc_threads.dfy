/**
 The httpsrc block queue as its threads run it: the session thread (curl's
 write callback and the end of the session), the flow timer thread, the
 streaming thread inside create(), and a thread calling stop().

 One action is one lock, unlock, wait, signal or check of the C code; what one
 critical section does to the fields it protects is one action. A thread whose
 next action has to wait for a mutex stutters. A schedule is any sequence of
 actions, so a statement about Run(Init(n), schedule) for every schedule is a
 statement about every interleaving.
*/
module HttpSrcThreads {
  import opened Bytes

  datatype Thread = Session | Timer | Stream | Stopper

  /** A mutex, and the thread that holds it. */
  datatype Lock = Free | BySession | ByTimer | ByStream | ByStopper

  /** Where a thread stands inside gst_http_src_data_received. In all these types the
      Want constructors wait for a mutex and the Give constructors release one. */
  datatype ProducerPc =
    | Outside                // in curl, or waiting for the timer to expire
    | WantFlow
    | Entered                // flowTimerMutex is held from here to Leave
    | Reblock                // the copying loop
    | Ready(at: ReadyPc)     // inside gst_http_src_buffer_ready
    | Leave
    | Ended(stage: EndPc)    // the session thread after curl_easy_perform
    | Finished

  datatype ReadyPc =
    | WantQueue
    | CheckRoom              // queueMutex is held: the not-full test
    | WantNotFull
    | GiveQueueThenSleep
    | FallAsleep
    | Asleep                 // in pthread_cond_wait on not-full
    | Woken
    | GiveNotFull
    | CheckStop
    | Refused                // buffer_ready returned FALSE: the block is freed
    | WantNotEmpty           // from here on the block is queued
    | GiveQueueThenSignal
    | SignalNotEmpty
    | GiveNotEmpty
    | GiveQueue

  datatype EndPc =
    | EndWantFlow
    | EndGiveFlow
    | EndJoin
    | EndWantQueue
    | EndWantNotEmpty
    | EndGiveQueue
    | EndSignal
    | EndGiveNotEmpty

  /** A producing thread: the rest of the data it was called with is data[off..];
      block is the local block taken off the current block and not yet queued. */
  datatype Producer = Producer(pc: ProducerPc, data: seq<byte>, off: nat, block: seq<byte>)

  /** Where the streaming thread stands in gst_http_src_create. */
  datatype StreamPc =
    | Downstream             // outside create()
    | Take(take: TakePc)
    | Wait(wait: WaitPc)
    | Eos(eos: EosPc)

  datatype TakePc =
    | TakeWantQueue
    | TakeHead
    | TakeGiveQueue
    | SigWantNotFull
    | SigGiveQueue
    | SigSignal
    | SigGiveNotFull
    | Deliver

  datatype WaitPc =
    | WaitWantNotEmpty
    | WaitGiveQueue
    | WaitFallAsleep
    | WaitAsleep             // in pthread_cond_wait on not-empty
    | WaitWoken
    | WaitGiveNotEmpty
    | WaitRecheck

  datatype EosPc =
    | EosStart
    | EosWantQueue
    | EosWantNotFull
    | EosGiveQueue
    | EosSetStop
    | EosSignal
    | EosGiveNotFull
    | EosWantFlow
    | EosPushCurrent
    | EosGiveFlowPushed
    | EosGiveFlow
    | EosWantQueueAgain
    | EosPushSole
    | EosGiveQueueAgain
    | EosDone

  datatype StopPc =
    | NotCalled
    | StopWantQueue
    | StopWantNotFull
    | StopGiveQueue
    | StopSignal
    | StopGiveNotFull
    | StopJoin

  /** How curl_easy_perform came back: what gst_http_src_session_thread makes of the code. */
  datatype Ending = Running | Normal | ErrorOnly | ErrorAndStop | StopOnly

  /** The block queue and the current block. */
  datatype Store = Store(
    queue: seq<seq<byte>>,
    queuedBytes: int,
    curr: seq<byte>,       // bytes in the current block; [] when there is none
    taken: seq<byte>)      // the block create() has taken off the queue

  datatype Mutexes = Mutexes(flow: Lock, queue: Lock, notEmpty: Lock, notFull: Lock)

  datatype Flags = Flags(started: Flag, stop: Flag, paused: Flag, failed: Flag)

  /** What has happened so far; only readPosition is a field of the C code. */
  datatype History = History(
    input: seq<byte>,      // everything curl handed over
    accepted: seq<byte>,   // everything copied into a block
    delivered: seq<byte>,  // everything pushed downstream
    readPosition: int,
    dropped: nat,          // bytes freed with a refused block
    refused: Flag,         // data_received returned without copying all its data
    disordered: Flag,      // the final push overtook queued blocks
    ending: Ending,
    stopCalled: Flag,
    exitedEmpty: Flag,     // create() left its loop through the empty-queue check
    staleWaiter: Flag,     // see EosSetStop
    lateSleeper: Flag)     // see EosSetStop

  datatype State = State(
    blockSize: nat,
    store: Store,
    mutexes: Mutexes,
    flags: Flags,
    session: Producer,
    timer: Producer,
    stream: StreamPc,
    stopper: StopPc,
    history: History)

  datatype Action =
    // what the environment does
    | Receive(data: seq<byte>)     // curl calls the write function
    | EndSession(how: Ending)      // curl_easy_perform returns
    | Expire                       // the flow timer runs out
    | CallCreate                   // downstream pulls
    | Unlock                       // gst_http_src_unlock
    | CallStop                     // gst_http_src_stop
    | SpuriousSession               // a wait that returns without a signal
    | SpuriousTimer
    | SpuriousStream
    // what the threads do next
    | Step(thread: Thread)

  const NobodyInside := Producer(Outside, [], 0, [])

  function Init(blockSize: nat): State {
    State(blockSize, Store([], 0, [], []), Mutexes(Free, Free, Free, Free), Flags(On, Off, Off, Off),
          NobodyInside, NobodyInside, Downstream, NotCalled,
          History([], [], [], 0, 0, Off, Off, Running, Off, Off, Off, Off))
  }

  // ---------------------------------------------------------------- actions

  function By(t: Thread): Lock {
    match t
    case Session => BySession
    case Timer => ByTimer
    case Stream => ByStream
    case Stopper => ByStopper
  }

  function Prod(s: State, t: Thread): Producer {
    if t.Session? then s.session else s.timer
  }

  function Put(s: State, t: Thread, p: Producer): State {
    if t.Session? then s.(session := p) else s.(timer := p)
  }

  function Goto(s: State, t: Thread, pc: ProducerPc): State {
    Put(s, t, Prod(s, t).(pc := pc))
  }

  predicate AsleepAt(pc: ProducerPc) { pc.Ready? && pc.at.Asleep? }

  /** pthread_cond_signal on not-full: wakes a sleeping producer, if there is one. */
  function WakeProducer(s: State): State {
    if AsleepAt(s.session.pc) then s.(session := s.session.(pc := Ready(Woken)))
    else if AsleepAt(s.timer.pc) then s.(timer := s.timer.(pc := Ready(Woken)))
    else s
  }

  /** pthread_cond_signal on not-empty. */
  function WakeStream(s: State): State {
    if s.stream.Wait? && s.stream.wait.WaitAsleep? then s.(stream := Wait(WaitWoken)) else s
  }

  /** The not-full limit of buffer_ready and create. */
  function Limit(blockSize: nat): nat { blockSize * 4 }

  function SetFlow(s: State, l: Lock): State { s.(mutexes := s.mutexes.(flow := l)) }

  function SetQueue(s: State, l: Lock): State { s.(mutexes := s.mutexes.(queue := l)) }

  function SetNotEmpty(s: State, l: Lock): State { s.(mutexes := s.mutexes.(notEmpty := l)) }

  function SetNotFull(s: State, l: Lock): State { s.(mutexes := s.mutexes.(notFull := l)) }

  // ------------------------------------------- gst_http_src_data_received

  /** One turn of the copying loop of data_received. */
  function CopyIntoBlock(s: State): State
    requires s.session.off < |s.session.data|
  {
    var p := s.session;
    var avail := s.blockSize - |s.store.curr|;
    var left := |p.data| - p.off;
    var n := if left > avail then avail else left;
    if n <= 0 then s else
    var bytes := p.data[p.off..p.off + n];
    var block := s.store.curr + bytes;
    var h := s.history.(accepted := s.history.accepted + bytes);
    if |block| < s.blockSize then
      s.(store := s.store.(curr := block), session := p.(off := p.off + n), history := h)
    else
      s.(store := s.store.(curr := []), history := h,
         session := p.(off := p.off + n, block := block, pc := Ready(WantQueue)))
  }

  /** The timer thread enters with a null pointer: it takes the current block, if there is one. */
  function TakeCurrent(s: State): State {
    s.(store := s.store.(curr := []), timer := s.timer.(block := s.store.curr, pc := Ready(WantQueue)))
  }

  /** data_received returns without copying: a stop was requested. */
  function Refuse(s: State): State {
    s.(session := s.session.(pc := Leave), history := s.history.(refused := On))
  }

  function StepProducer(s: State, t: Thread): State {
    var p := Prod(s, t);
    match p.pc
    case Outside => if t.Timer? && s.flags.stop.On? then Goto(s, t, Finished) else s
    case WantFlow => if s.mutexes.flow.Free? then SetFlow(Goto(s, t, Entered), By(t)) else s
    case Entered =>
      if t.Session? then
        if s.flags.started.On? && s.flags.stop.Off? then Goto(s, t, Reblock)
        else if p.data != [] then Refuse(s)
        else Goto(s, t, Leave)
      else if s.store.curr != [] then TakeCurrent(s)
      else Goto(s, t, Leave)
    case Reblock => if t.Session? && p.off < |p.data| then CopyIntoBlock(s) else Goto(s, t, Leave)
    case Leave => SetFlow(Put(s, t, NobodyInside), Free)
    case Ready(at) => StepReady(s, t, at)
    case Ended(stage) => if t.Session? then StepEnded(s, stage) else s
    case Finished => s
  }

  // -------------------------------------------- gst_http_src_buffer_ready

  function Enqueue(s: State, t: Thread): State {
    var p := Prod(s, t);
    var q := s.store.(queue := s.store.queue + [p.block], queuedBytes := s.store.queuedBytes + |p.block|);
    Put(s.(store := q), t, p.(block := [], pc := Ready(if s.store.queue == [] then WantNotEmpty else GiveQueue)))
  }

  /** The block of a refused call is freed. */
  function Drop(s: State, t: Thread): State {
    var p := Prod(s, t);
    var h := s.history.(dropped := s.history.dropped + |p.block|, refused := if t.Session? then On else s.history.refused);
    Put(s.(history := h), t, p.(block := [], pc := Leave))
  }

  /** buffer_ready returned TRUE. */
  function AfterReady(t: Thread): ProducerPc {
    if t.Session? then Reblock else Leave
  }

  function StepReady(s: State, t: Thread, at: ReadyPc): State {
    match at
    case WantQueue => if s.mutexes.queue.Free? then SetQueue(Goto(s, t, Ready(CheckRoom)), By(t)) else s
    case CheckRoom =>
      if s.store.queuedBytes > Limit(s.blockSize) then
        if s.flags.stop.On? then SetQueue(Goto(s, t, Ready(Refused)), Free)
        else Goto(s, t, Ready(WantNotFull))
      else Enqueue(s, t)
    case WantNotFull => if s.mutexes.notFull.Free? then SetNotFull(Goto(s, t, Ready(GiveQueueThenSleep)), By(t)) else s
    case GiveQueueThenSleep => SetQueue(Goto(s, t, Ready(FallAsleep)), Free)
    case FallAsleep => SetNotFull(Goto(s, t, Ready(Asleep)), Free)
    case Asleep => s
    case Woken => if s.mutexes.notFull.Free? then SetNotFull(Goto(s, t, Ready(GiveNotFull)), By(t)) else s
    case GiveNotFull => SetNotFull(Goto(s, t, Ready(CheckStop)), Free)
    case CheckStop => Goto(s, t, Ready(if s.flags.stop.On? then Refused else WantQueue))
    case Refused => Drop(s, t)
    case WantNotEmpty => if s.mutexes.notEmpty.Free? then SetNotEmpty(Goto(s, t, Ready(GiveQueueThenSignal)), By(t)) else s
    case GiveQueueThenSignal => SetQueue(Goto(s, t, Ready(SignalNotEmpty)), Free)
    case SignalNotEmpty => WakeStream(Goto(s, t, Ready(GiveNotEmpty)))
    case GiveNotEmpty => SetNotEmpty(Goto(s, t, AfterReady(t)), Free)
    case GiveQueue => SetQueue(Goto(s, t, AfterReady(t)), Free)
  }

  // --------------------------------------- gst_http_src_session_thread, end

  function AtEnd(s: State, stage: EndPc): State {
    s.(session := s.session.(pc := Ended(stage)))
  }

  function StepEnded(s: State, stage: EndPc): State {
    match stage
    case EndWantFlow => if s.mutexes.flow.Free? then SetFlow(AtEnd(s, EndGiveFlow), BySession) else s
    case EndGiveFlow => SetFlow(AtEnd(s, EndJoin), Free)
    case EndJoin =>
      if s.timer.pc.Finished? then AtEnd(s, EndWantQueue).(flags := s.flags.(started := Off)) else s
    case EndWantQueue => if s.mutexes.queue.Free? then SetQueue(AtEnd(s, EndWantNotEmpty), BySession) else s
    case EndWantNotEmpty => if s.mutexes.notEmpty.Free? then SetNotEmpty(AtEnd(s, EndGiveQueue), BySession) else s
    case EndGiveQueue => SetQueue(AtEnd(s, EndSignal), Free)
    case EndSignal => WakeStream(AtEnd(s, EndGiveNotEmpty))
    case EndGiveNotEmpty => SetNotEmpty(Goto(s, Session, Finished), Free)
  }

  // -------------------------------------------------- gst_http_src_create

  /** The three flags create() tests in its loop. */
  predicate NoMoreData(f: Flags) {
    f.started.Off? || f.stop.On? || f.paused.On?
  }

  function Pushed(h: History, block: seq<byte>): History {
    h.(delivered := h.delivered + block, readPosition := h.readPosition + |block|)
  }

  function TakeFirst(s: State): State
    requires s.store.queue != []
  {
    var q := s.store;
    s.(store := q.(taken := q.queue[0], queue := q.queue[1..], queuedBytes := q.queuedBytes - |q.queue[0]|),
       stream := Take(if q.queuedBytes > Limit(s.blockSize) then SigWantNotFull else TakeGiveQueue))
  }

  /** The loop ends at the empty-queue check. */
  function LeaveEmpty(s: State): State {
    SetQueue(s, Free).(stream := Eos(EosStart), history := s.history.(exitedEmpty := On))
  }

  function StepTake(s: State, at: TakePc): State {
    match at
    case TakeWantQueue => if s.mutexes.queue.Free? then SetQueue(s, ByStream).(stream := Take(TakeHead)) else s
    case TakeHead =>
      if s.store.queue != [] then TakeFirst(s)
      else if NoMoreData(s.flags) then LeaveEmpty(s)
      else s.(stream := Wait(WaitWantNotEmpty))
    case TakeGiveQueue => SetQueue(s, Free).(stream := Take(Deliver))
    case SigWantNotFull => if s.mutexes.notFull.Free? then SetNotFull(s, ByStream).(stream := Take(SigGiveQueue)) else s
    case SigGiveQueue => SetQueue(s, Free).(stream := Take(SigSignal))
    case SigSignal => WakeProducer(s.(stream := Take(SigGiveNotFull)))
    case SigGiveNotFull => SetNotFull(s, Free).(stream := Take(Deliver))
    case Deliver =>
      s.(store := s.store.(taken := []), stream := Downstream, history := Pushed(s.history, s.store.taken))
  }

  function StepWait(s: State, at: WaitPc): State {
    match at
    case WaitWantNotEmpty => if s.mutexes.notEmpty.Free? then SetNotEmpty(s, ByStream).(stream := Wait(WaitGiveQueue)) else s
    case WaitGiveQueue => SetQueue(s, Free).(stream := Wait(WaitFallAsleep))
    case WaitFallAsleep => SetNotEmpty(s, Free).(stream := Wait(WaitAsleep))
    case WaitAsleep => s
    case WaitWoken => if s.mutexes.notEmpty.Free? then SetNotEmpty(s, ByStream).(stream := Wait(WaitGiveNotEmpty)) else s
    case WaitGiveNotEmpty => SetNotEmpty(s, Free).(stream := Wait(WaitRecheck))
    case WaitRecheck => s.(stream := if NoMoreData(s.flags) then Eos(EosStart) else Take(TakeWantQueue))
  }

  /** A producer that has slept on not-full and has not yet passed the stop check behind it. */
  predicate Stale(pc: ProducerPc) {
    pc.Ready? && (pc.at.Asleep? || pc.at.Woken? || pc.at.GiveNotFull? || pc.at.CheckStop?)
  }

  /** A producer that has found the queue full and the stop flag clear, and is about to sleep. */
  predicate Late(pc: ProducerPc) {
    pc.Ready? && pc.at.WantNotFull?
  }

  /** create() sets the stop flag; the history notes where the producers are at that moment. */
  function RaiseStop(s: State): State {
    s.(flags := s.flags.(stop := On), stream := Eos(EosSignal),
       history := s.history.(
         staleWaiter := if Stale(s.session.pc) || Stale(s.timer.pc) then On else Off,
         lateSleeper := if Late(s.session.pc) || Late(s.timer.pc) then On else Off))
  }

  /** The current block is pushed in front of the end-of-stream event. */
  function PushCurrent(s: State): State {
    var h := Pushed(s.history, s.store.curr);
    s.(store := s.store.(curr := []), stream := Eos(EosGiveFlowPushed),
       history := h.(disordered := if s.store.queue != [] then On else h.disordered))
  }

  /** The only queued block is pushed in front of the end-of-stream event. */
  function PushSole(s: State): State
    requires |s.store.queue| == 1
  {
    s.(store := s.store.(queue := [], queuedBytes := 0, curr := []), stream := Eos(EosGiveQueueAgain),
       history := Pushed(s.history, s.store.queue[0]))
  }

  function StepEos(s: State, at: EosPc): State {
    match at
    case EosStart => s.(stream := Eos(if s.flags.failed.On? then EosDone else EosWantQueue))
    case EosWantQueue => if s.mutexes.queue.Free? then SetQueue(s, ByStream).(stream := Eos(EosWantNotFull)) else s
    case EosWantNotFull => if s.mutexes.notFull.Free? then SetNotFull(s, ByStream).(stream := Eos(EosGiveQueue)) else s
    case EosGiveQueue => SetQueue(s, Free).(stream := Eos(EosSetStop))
    case EosSetStop => RaiseStop(s)
    case EosSignal => WakeProducer(s.(stream := Eos(EosGiveNotFull)))
    case EosGiveNotFull => SetNotFull(s, Free).(stream := Eos(EosWantFlow))
    case EosWantFlow => if s.mutexes.flow.Free? then SetFlow(s, ByStream).(stream := Eos(EosPushCurrent)) else s
    case EosPushCurrent => if s.store.curr != [] then PushCurrent(s) else s.(stream := Eos(EosGiveFlow))
    case EosGiveFlowPushed => SetFlow(s, Free).(stream := Eos(EosDone))
    case EosGiveFlow => SetFlow(s, Free).(stream := Eos(EosWantQueueAgain))
    case EosWantQueueAgain => if s.mutexes.queue.Free? then SetQueue(s, ByStream).(stream := Eos(EosPushSole)) else s
    case EosPushSole => if |s.store.queue| == 1 then PushSole(s) else s.(stream := Eos(EosGiveQueueAgain))
    case EosGiveQueueAgain => SetQueue(s, Free).(stream := Eos(EosDone))
    case EosDone => s
  }

  function StepStream(s: State): State {
    match s.stream
    case Downstream => s
    case Take(at) => StepTake(s, at)
    case Wait(at) => StepWait(s, at)
    case Eos(at) => StepEos(s, at)
  }

  // ---------------------------------------------------- gst_http_src_stop

  function StepStopper(s: State): State {
    match s.stopper
    case NotCalled => s
    case StopWantQueue => if s.mutexes.queue.Free? then SetQueue(s, ByStopper).(stopper := StopWantNotFull) else s
    case StopWantNotFull => if s.mutexes.notFull.Free? then SetNotFull(s, ByStopper).(stopper := StopGiveQueue) else s
    case StopGiveQueue => SetQueue(s, Free).(stopper := StopSignal)
    case StopSignal => WakeProducer(s.(stopper := StopGiveNotFull))
    case StopGiveNotFull => SetNotFull(s, Free).(stopper := StopJoin)
    case StopJoin => s
  }

  // --------------------------------------------------------- environment

  /** What gst_http_src_session_thread makes of curl's return code. */
  function EndFlags(f: Flags, how: Ending): Flags {
    if f.stop.On? then f
    else match how
      case Running => f
      case Normal => f.(paused := On)
      case ErrorOnly => f.(paused := On, failed := On)
      case ErrorAndStop => f.(paused := On, failed := On, stop := On)
      case StopOnly => f.(paused := On, stop := On)
  }

  function SessionOver(s: State, how: Ending): State {
    AtEnd(s, EndWantFlow).(flags := EndFlags(s.flags, how), history := s.history.(ending := how))
  }

  /** An outside request to stop: gst_http_src_unlock, or the first line of gst_http_src_stop. */
  function AskStop(s: State): State {
    s.(flags := s.flags.(stop := On), history := s.history.(stopCalled := On))
  }

  function Call(s: State, data: seq<byte>): State {
    s.(session := Producer(WantFlow, data, 0, []), history := s.history.(input := s.history.input + data))
  }

  function Next(s: State, a: Action): State {
    match a
    case Receive(data) => if s.session.pc.Outside? then Call(s, data) else s
    case EndSession(how) => if s.session.pc.Outside? && !how.Running? then SessionOver(s, how) else s
    case Expire => if s.timer.pc.Outside? then Goto(s, Timer, WantFlow) else s
    case CallCreate =>
      if s.stream.Downstream? then
        s.(stream := if s.flags.started.On? && s.flags.stop.Off? then Take(TakeWantQueue) else Eos(EosStart))
      else s
    case Unlock => AskStop(s)
    case CallStop => if s.stopper.NotCalled? then AskStop(s).(stopper := StopWantQueue) else s
    case SpuriousSession => if AsleepAt(s.session.pc) then Goto(s, Session, Ready(Woken)) else s
    case SpuriousTimer => if AsleepAt(s.timer.pc) then Goto(s, Timer, Ready(Woken)) else s
    case SpuriousStream => WakeStream(s)
    case Step(t) =>
      match t
      case Session => StepProducer(s, Session)
      case Timer => StepProducer(s, Timer)
      case Stream => StepStream(s)
      case Stopper => StepStopper(s)
  }

  // ----------------------------------------------------- case distinctions

  // Each names the places a thread can be at, for proofs that go through them one by one.

  lemma ReadyCases(at: ReadyPc)
    ensures
      || at.WantQueue? || at.CheckRoom? || at.WantNotFull? || at.GiveQueueThenSleep? || at.FallAsleep?
      || at.Asleep? || at.Woken? || at.GiveNotFull? || at.CheckStop? || at.Refused? || at.WantNotEmpty?
      || at.GiveQueueThenSignal? || at.SignalNotEmpty? || at.GiveNotEmpty? || at.GiveQueue?
  {
  }

  /** From the first mutex to the test behind the wait. */
  predicate BeforeQueued(at: ReadyPc) {
    || at.WantQueue? || at.WantNotFull? || at.GiveQueueThenSleep? || at.FallAsleep?
    || at.Asleep? || at.Woken? || at.GiveNotFull? || at.CheckStop?
  }

  lemma ProducerCases(pc: ProducerPc)
    ensures
      || pc.Outside? || pc.WantFlow? || pc.Entered? || pc.Reblock? || pc.Ready? || pc.Leave? || pc.Ended?
      || pc.Finished?
  {
  }

  lemma EndCases(stage: EndPc)
    ensures
      || stage.EndWantFlow? || stage.EndGiveFlow? || stage.EndJoin? || stage.EndWantQueue?
      || stage.EndWantNotEmpty? || stage.EndGiveQueue? || stage.EndSignal? || stage.EndGiveNotEmpty?
  {
  }

  lemma TakeCases(at: TakePc)
    ensures
      || at.TakeWantQueue? || at.TakeHead? || at.TakeGiveQueue? || at.SigWantNotFull? || at.SigGiveQueue?
      || at.SigSignal? || at.SigGiveNotFull? || at.Deliver?
  {
  }

  lemma WaitCases(at: WaitPc)
    ensures
      || at.WaitWantNotEmpty? || at.WaitGiveQueue? || at.WaitFallAsleep? || at.WaitAsleep? || at.WaitWoken?
      || at.WaitGiveNotEmpty? || at.WaitRecheck?
  {
  }

  lemma EosCases(at: EosPc)
    ensures
      || at.EosStart? || at.EosWantQueue? || at.EosWantNotFull? || at.EosGiveQueue? || at.EosSetStop?
      || at.EosSignal? || at.EosGiveNotFull? || at.EosWantFlow? || at.EosPushCurrent?
      || at.EosGiveFlowPushed? || at.EosGiveFlow? || at.EosWantQueueAgain? || at.EosPushSole?
      || at.EosGiveQueueAgain? || at.EosDone?
  {
  }

  lemma StopCases(pc: StopPc)
    ensures
      || pc.NotCalled? || pc.StopWantQueue? || pc.StopWantNotFull? || pc.StopGiveQueue? || pc.StopSignal?
      || pc.StopGiveNotFull? || pc.StopJoin?
  {
  }

  lemma ActionCases(a: Action)
    ensures
      || a.Receive? || a.EndSession? || a.Expire? || a.CallCreate? || a.Unlock? || a.CallStop?
      || a.SpuriousSession? || a.SpuriousTimer? || a.SpuriousStream? || a.Step?
  {
  }

  function Run(s: State, schedule: seq<Action>): State
    decreases |schedule|
  {
    if schedule == [] then s else Run(Next(s, schedule[0]), schedule[1..])
  }
}
