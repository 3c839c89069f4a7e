/**
 The threads around the pending list: whoever feeds the element, the pad task that empties the list, and the state
 change that stops the pad task. Everything done under the items lock is one step; what the pad task does while it
 holds the lock is several, since the playing flag is written without it.
*/
module RbiThreads {
  import opened Bytes
  import opened RbiList

  /** Where the pad task stands. */
  datatype TaskPc =
    | Asking                        // about to ask the callback whether data is being inserted
    | WantLock
    | Checking                      // the lock is held from here ...
    | Sleeping                      // about to wait: the three conditions have been read
    | Taking                        // ... to here
    | Waiting                       // on the condition, the lock released
    | Working(item: Option<Item>)   // the callbacks and the push, no lock held
    | Paused                        // after a push that failed
    | Ended                         // not running

  /** Where the state change thread stands. Starting: the flag is set and the pad task does not run yet, because it is
      about to be started or because that failed. */
  datatype StopPc = Running | FlagCleared | Signalled | Stopped | Starting

  /** What became of every item, in order; direct: pushed at once because the element was not playing; out: pushed,
      either way. */
  datatype History = History(
    added: seq<Item>,
    pushed: seq<Item>,
    released: seq<Item>,
    direct: seq<Item>,
    out: seq<Item>)

  datatype State = State(pending: seq<Item>, playing: Flag, inserting: Flag, task: TaskPc, stopper: StopPc, next: nat, past: History)

  datatype Kind = AnEvent | ABuffer

  datatype Action =
    | Add(kind: Kind)                       // gst_rbifilter_add_event, gst_rbifilter_add_buffer
    | Flush
    | Ask(answer: Flag)
    | Lock
    | Check
    | Sleep
    | Spurious                              // the wait returns unasked
    | Take
    | Work(keep: Flag, ok: Flag)            // keep: the callback lets the buffer pass; ok: the push succeeds
    | ClearFlag                             // playing = FALSE, no lock held
    | SignalStop
    | Join                                  // gst_pad_stop_task has seen the loop function return
    | SetFlag                               // playing = TRUE, inserting = FALSE, no lock held
    | StartTask                             // gst_pad_start_task succeeds

  predicate TaskHoldsLock(pc: TaskPc) { pc.Checking? || pc.Sleeping? || pc.Taking? }

  predicate Enabled(s: State, a: Action) {
    match a
    case Add(_) => !TaskHoldsLock(s.task)
    case Flush => !TaskHoldsLock(s.task)
    case Ask(_) => s.task.Asking?
    case Lock => s.task.WantLock?
    case Check => s.task.Checking?
    case Sleep => s.task.Sleeping?
    case Spurious => s.task.Waiting?
    case Take => s.task.Taking?
    case Work(_, _) => s.task.Working?
    case ClearFlag => s.stopper.Running?
    case SignalStop => s.stopper.FlagCleared? && !TaskHoldsLock(s.task)
    case Join => s.stopper.Signalled? && (s.task.Asking? || s.task.Paused?)
    case SetFlag => s.stopper.Stopped? || s.stopper.Starting?
    case StartTask => s.stopper.Starting?
  }

  /** g_cond_signal: a waiting pad task goes for the lock again. */
  function Woken(pc: TaskPc): TaskPc { if pc.Waiting? then WantLock else pc }

  function NewItem(kind: Kind, id: nat): Item {
    if kind.AnEvent? then Event(id) else Buffer(id)
  }

  function DoAdd(s: State, kind: Kind): State {
    var i := NewItem(kind, s.next);
    if s.playing.On? then
      s.(pending := s.pending + [i], task := Woken(s.task), next := s.next + 1, past := s.past.(added := s.past.added + [i]))
    else
      s.(next := s.next + 1, past := s.past.(direct := s.past.direct + [i], out := s.past.out + [i]))
  }

  function DoFlush(s: State): State {
    s.(pending := Events(s.pending), past := s.past.(released := s.past.released + Buffers(s.pending)))
  }

  function DoCheck(s: State): State {
    s.(task := if s.inserting.Off? && s.pending == [] && s.playing.On? then Sleeping else Taking)
  }

  function DoTake(s: State): State {
    if s.pending == [] then s.(task := Working(None))
    else s.(pending := s.pending[1..], task := Working(Some(s.pending[0])))
  }

  /** The callbacks and the push. Data the callbacks insert is not one of the items. */
  function DoWork(s: State, keep: Flag, ok: Flag): State
    requires s.task.Working?
  {
    match s.task.item
    case None => s.(task := if ok.On? then Asking else Paused)
    case Some(i) =>
      var past := if i.Event? || keep.On? then s.past.(pushed := s.past.pushed + [i], out := s.past.out + [i])
                  else s.past.(released := s.past.released + [i]);
      s.(task := if i.Event? || ok.On? then Asking else Paused, past := past)
  }

  function Next(s: State, a: Action): State
    requires Enabled(s, a)
  {
    match a
    case Add(kind) => DoAdd(s, kind)
    case Flush => DoFlush(s)
    case Ask(answer) => s.(inserting := answer, task := WantLock)
    case Lock => s.(task := Checking)
    case Check => DoCheck(s)
    case Sleep => s.(task := Waiting)
    case Spurious => s.(task := WantLock)
    case Take => DoTake(s)
    case Work(keep, ok) => DoWork(s, keep, ok)
    case ClearFlag => s.(playing := Off, stopper := FlagCleared)
    case SignalStop => s.(task := Woken(s.task), stopper := Signalled)
    case Join => s.(task := Ended, stopper := Stopped)
    case SetFlag => s.(playing := On, inserting := Off, stopper := Starting)
    case StartTask => s.(task := Asking, stopper := Running)
  }

  /** An element in PAUSED that has not played yet. */
  function Start(): State {
    State([], Off, Off, Ended, Stopped, 0, History([], [], [], [], []))
  }

  function Run(s: State, actions: seq<Action>): Option<State>
    decreases |actions|
  {
    if actions == [] then Some(s)
    else if Enabled(s, actions[0]) then Run(Next(s, actions[0]), actions[1..])
    else None
  }

  // -------------------------------------------------------------- wake-ups

  /** Nobody sleeps in vain: a pad task that waits, or is about to, has nothing to do, and the element is playing or the
      stop signal is still to come. */
  predicate Awake(s: State) {
    && (s.playing.On? <==> s.stopper.Running? || s.stopper.Starting?)
    && (s.task.Ended? <==> s.stopper.Stopped? || s.stopper.Starting?)
    && (s.task.Waiting? || s.task.Sleeping? ==> s.pending == [] && (s.stopper.Running? || s.stopper.FlagCleared?))
  }

  lemma NextAwake(s: State, a: Action)
    requires Awake(s) && Enabled(s, a)
    ensures Awake(Next(s, a))
  {
    match a
    case Flush => if s.pending == [] { assert Events(s.pending) == []; }
    case _ =>
  }

  // ------------------------------------------------------------- ownership

  function InHand(pc: TaskPc): seq<Item> {
    if pc.Working? && pc.item.Some? then [pc.item.value] else []
  }

  /** Identities are given out once, in increasing order, whether an item is queued or pushed at once. */
  ghost predicate Fresh(s: State) {
    && Increasing(s.past.added)
    && forall i :: 0 <= i < |s.past.added| ==> s.past.added[i].id < s.next
  }

  /** Every queued item is in one place. */
  ghost predicate Owned(s: State) {
    multiset(s.past.added) ==
    multiset(s.pending) + multiset(InHand(s.task)) + multiset(s.past.pushed) + multiset(s.past.released)
  }

  /** What was pushed, what is in hand and what is queued, one behind the other. */
  function Line(s: State): seq<Item> { s.past.pushed + InHand(s.task) + s.pending }

  /** They are in the order of adding. */
  ghost predicate InOrder(s: State) {
    Increasing(Line(s)) && forall i :: 0 <= i < |Line(s)| ==> Line(s)[i].id < s.next
  }

  ghost predicate Inv(s: State) { Awake(s) && Fresh(s) && Owned(s) && InOrder(s) }

  lemma IncreasingSnoc(a: seq<Item>, i: Item)
    requires Increasing(a) && forall k :: 0 <= k < |a| ==> a[k].id < i.id
    ensures Increasing(a + [i]) && forall k :: 0 <= k < |a + [i]| ==> (a + [i])[k].id < i.id + 1
  {
  }

  /** Leaving out a stretch in the middle. */
  lemma IncreasingWithout(a: seq<Item>, b: seq<Item>, c: seq<Item>, bound: nat)
    requires Increasing(a + b + c) && forall k :: 0 <= k < |a + b + c| ==> (a + b + c)[k].id < bound
    ensures Increasing(a + c) && forall k :: 0 <= k < |a + c| ==> (a + c)[k].id < bound
  {
    var all, some := a + b + c, a + c;
    forall k | 0 <= k < |some| ensures some[k] == all[if k < |a| then k else k + |b|] {
    }
    forall i, j | 0 <= i < j < |some| ensures some[i].id < some[j].id {
      assert some[i] == all[if i < |a| then i else i + |b|] && some[j] == all[if j < |a| then j else j + |b|];
    }
  }

  /** Leaving out the buffers at the back. */
  lemma {:induction false} IncreasingEvents(a: seq<Item>, b: seq<Item>, bound: nat)
    requires Increasing(a + b) && forall k :: 0 <= k < |a + b| ==> (a + b)[k].id < bound
    ensures Increasing(a + Events(b)) && forall k :: 0 <= k < |a + Events(b)| ==> (a + Events(b))[k].id < bound
    decreases |b|
  {
    hide Increasing;
    if b != [] {
      assert b == [b[0]] + b[1..];
      if b[0].Event? {
        assert a + b == (a + [b[0]]) + b[1..] && a + Events(b) == (a + [b[0]]) + Events(b[1..]);
        IncreasingEvents(a + [b[0]], b[1..], bound);
      } else {
        assert a + b == a + [b[0]] + b[1..] && Events(b) == Events(b[1..]);
        IncreasingWithout(a, [b[0]], b[1..], bound);
        IncreasingEvents(a, b[1..], bound);
      }
    }
  }

  lemma SnocCounts(a: seq<Item>, i: Item)
    ensures multiset(a + [i]) == multiset(a) + multiset([i])
  {
  }

  lemma AddOwned(s: State, kind: Kind)
    requires Owned(s) && s.playing.On?
    ensures Owned(DoAdd(s, kind))
  {
    hide InHand, NewItem;
    var i := NewItem(kind, s.next);
    SnocCounts(s.past.added, i);
    SnocCounts(s.pending, i);
    WokenHand(s.task);
  }

  lemma WokenHand(pc: TaskPc)
    ensures InHand(Woken(pc)) == InHand(pc)
  {
  }

  lemma AddInOrder(s: State, kind: Kind)
    requires InOrder(s) && s.playing.On?
    ensures InOrder(DoAdd(s, kind))
  {
    hide InHand, Increasing;
    var i := NewItem(kind, s.next);
    WokenHand(s.task);
    IncreasingSnoc(Line(s), i);
    assert Line(DoAdd(s, kind)) == Line(s) + [i];
  }

  lemma AddFresh(s: State, kind: Kind)
    requires Fresh(s) && s.playing.On?
    ensures Fresh(DoAdd(s, kind))
  {
    hide Increasing;
    IncreasingSnoc(s.past.added, NewItem(kind, s.next));
  }

  lemma AddKeeps(s: State, kind: Kind)
    requires Inv(s) && Enabled(s, Add(kind))
    ensures Inv(DoAdd(s, kind))
  {
    hide Increasing, InHand, Awake;
    NextAwake(s, Add(kind));
    if s.playing.On? {
      hide Owned, InOrder, Fresh, DoAdd;
      AddOwned(s, kind);
      AddInOrder(s, kind);
      AddFresh(s, kind);
    } else {
      assert Line(DoAdd(s, kind)) == Line(s);
    }
  }

  lemma FlushOwned(s: State)
    requires Owned(s)
    ensures Owned(DoFlush(s))
  {
    hide InHand;
    FlushSplits(s.pending);
    AppendCounts(s.past.released, Buffers(s.pending));
  }

  lemma AppendCounts(a: seq<Item>, b: seq<Item>)
    ensures multiset(a + b) == multiset(a) + multiset(b)
  {
  }

  lemma FlushKeeps(s: State)
    requires Inv(s) && Enabled(s, Flush)
    ensures Inv(DoFlush(s))
  {
    hide Increasing, InHand, Awake, Owned;
    NextAwake(s, Flush);
    FlushOwned(s);
    IncreasingEvents(s.past.pushed + InHand(s.task), s.pending, s.next);
  }

  lemma TakeOwned(s: State)
    requires Owned(s) && s.task.Taking? && s.pending != []
    ensures Owned(DoTake(s))
  {
    assert s.pending == [s.pending[0]] + s.pending[1..];
    AppendCounts([s.pending[0]], s.pending[1..]);
  }

  lemma TakeLine(s: State)
    requires s.task.Taking?
    ensures Line(DoTake(s)) == Line(s)
  {
    if s.pending != [] {
      assert s.pending == [s.pending[0]] + s.pending[1..];
    }
  }

  lemma TakeKeeps(s: State)
    requires Inv(s) && Enabled(s, Take)
    ensures Inv(DoTake(s))
  {
    hide Increasing, Awake, Line;
    NextAwake(s, Take);
    TakeLine(s);
    if s.pending != [] {
      hide Owned;
      TakeOwned(s);
    }
  }

  /** The item in hand moves to the end of another list. */
  lemma OwnedMoves(all: multiset<Item>, i: Item, queued: multiset<Item>, to: seq<Item>, rest: multiset<Item>)
    requires all == queued + multiset([i]) + multiset(to) + rest
    ensures all == queued + multiset{} + multiset(to + [i]) + rest
  {
  }

  lemma PushKeeps(s: State, s1: State, i: Item)
    requires Inv(s) && InHand(s.task) == [i] && InHand(s1.task) == [] && Awake(s1)
    requires s1.pending == s.pending && s1.next == s.next && s1.past == s.past.(pushed := s.past.pushed + [i], out := s.past.out + [i])
    ensures Inv(s1)
  {
    hide Increasing, InHand, Awake;
    OwnedMoves(multiset(s.past.added), i, multiset(s.pending), s.past.pushed, multiset(s.past.released));
    assert Line(s1) == Line(s);
  }

  lemma DropKeeps(s: State, s1: State, i: Item)
    requires Inv(s) && InHand(s.task) == [i] && InHand(s1.task) == [] && Awake(s1)
    requires s1.pending == s.pending && s1.next == s.next && s1.past == s.past.(released := s.past.released + [i])
    ensures Inv(s1)
  {
    hide Increasing, InHand, Awake;
    OwnedMoves(multiset(s.past.added), i, multiset(s.pending), s.past.released, multiset(s.past.pushed));
    IncreasingWithout(s.past.pushed, [i], s.pending, s.next);
    assert Line(s1) == s.past.pushed + s.pending;
  }

  /** Nothing of what is owned or in line has changed. */
  lemma SameKeeps(s: State, s1: State)
    requires Inv(s) && Awake(s1) && InHand(s1.task) == InHand(s.task)
    requires s1.pending == s.pending && s1.next == s.next && s1.past == s.past
    ensures Inv(s1)
  {
    hide Increasing, InHand, Awake;
    assert Line(s1) == Line(s);
  }

  lemma WorkKeeps(s: State, keep: Flag, ok: Flag)
    requires Inv(s) && Enabled(s, Work(keep, ok))
    ensures Inv(DoWork(s, keep, ok))
  {
    hide Inv, Awake;
    assert Awake(DoWork(s, keep, ok)) by {
      InvAwake(s);
      NextAwake(s, Work(keep, ok));
    }
    var s1 := DoWork(s, keep, ok);
    match s.task.item
    case None => SameKeeps(s, s1);
    case Some(i) =>
      if i.Event? || keep.On? {
        PushKeeps(s, s1, i);
      } else {
        DropKeeps(s, s1, i);
      }
  }

  lemma InvAwake(s: State)
    requires Inv(s)
    ensures Awake(s)
  {
  }

  lemma NextKeeps(s: State, a: Action)
    requires Inv(s) && Enabled(s, a)
    ensures Inv(Next(s, a))
  {
    match a
    case Add(kind) => AddKeeps(s, kind);
    case Flush => FlushKeeps(s);
    case Take => TakeKeeps(s);
    case Work(keep, ok) => WorkKeeps(s, keep, ok);
    case _ => OtherKeeps(s, a);
  }

  lemma OtherKeeps(s: State, a: Action)
    requires Inv(s) && Enabled(s, a) && !a.Add? && !a.Flush? && !a.Take? && !a.Work?
    ensures Inv(Next(s, a))
  {
    hide Inv;
    InvAwake(s);
    NextAwake(s, a);
    SameKeeps(s, Next(s, a));
  }

  lemma {:induction false} RunKeeps(s: State, actions: seq<Action>)
    requires Inv(s)
    ensures Run(s, actions).Some? ==> Inv(Run(s, actions).value)
    decreases |actions|
  {
    hide Inv, Next, Enabled;
    if actions != [] && Run(s, actions).Some? {
      NextKeeps(s, actions[0]);
      RunKeeps(Next(s, actions[0]), actions[1..]);
    }
  }

  lemma StartHolds()
    ensures Inv(Start())
  {
  }

  /** In every reachable state, an item that was queued is in exactly one place: still queued, in the pad task's
      hand, pushed or released. */
  lemma EveryItemOnce(actions: seq<Action>, i: Item)
    requires Run(Start(), actions).Some? && i in Run(Start(), actions).value.past.added
    ensures var s := Run(Start(), actions).value;
      multiset(s.pending)[i] + multiset(InHand(s.task))[i] + multiset(s.past.pushed)[i] + multiset(s.past.released)[i] == 1
  {
    hide Run, Start;
    StartHolds();
    RunKeeps(Start(), actions);
    Distinct(Run(Start(), actions).value.past.added, i);
  }

  lemma {:induction false} Distinct(items: seq<Item>, i: Item)
    requires Increasing(items) && i in items
    ensures multiset(items)[i] == 1
    decreases |items|
  {
    assert items == [items[0]] + items[1..];
    if i == items[0] {
      assert i !in items[1..];
    } else {
      Distinct(items[1..], i);
    }
  }

  /** In every reachable state what was pushed out of the queue was pushed in the order of adding, and ahead of
      everything still queued, whatever was flushed, dropped or pushed past the queue in between. */
  lemma FirstInFirstOut(actions: seq<Action>)
    requires Run(Start(), actions).Some?
    ensures var s := Run(Start(), actions).value; Increasing(s.past.pushed + InHand(s.task) + s.pending)
  {
    hide Run, Start, Increasing;
    StartHolds();
    RunKeeps(Start(), actions);
  }

  /** In every reachable state a pad task that waits has nothing to take, and either the element is playing or the
      thread that stopped it can still send its signal; once that is sent the pad task neither waits nor will before
      the next start. */
  lemma NeverSleepsThrough(actions: seq<Action>)
    requires Run(Start(), actions).Some?
    ensures var s := Run(Start(), actions).value;
      && (s.task.Waiting? ==> s.pending == [] && (s.playing.On? || Enabled(s, SignalStop)))
      && (s.stopper.Signalled? ==> !s.task.Waiting? && !s.task.Sleeping?)
  {
    hide Run, Start, Increasing;
    StartHolds();
    RunKeeps(Start(), actions);
  }

  // ------------------------------------------------------------ overtaking

  /** What has left the element, by way of the queue or directly, and what is still to follow. */
  function Whole(s: State): seq<Item> { s.past.out + InHand(s.task) + s.pending }

  /** All of it is in the order of adding. */
  ghost predicate WholeInOrder(s: State) {
    Increasing(Whole(s)) && forall i :: 0 <= i < |Whole(s)| ==> Whole(s)[i].id < s.next
  }

  /** An item pushed directly while others are queued or in the pad task's hand. */
  predicate Overtakes(s: State, a: Action) {
    a.Add? && s.playing.Off? && InHand(s.task) + s.pending != []
  }

  lemma DirectInOrder(s: State, kind: Kind)
    requires WholeInOrder(s) && s.playing.Off?
    ensures WholeInOrder(DoAdd(s, kind)) <==> InHand(s.task) + s.pending == []
  {
    hide InHand;
    var i, s1, left := NewItem(kind, s.next), DoAdd(s, kind), InHand(s.task) + s.pending;
    assert Whole(s) == s.past.out + left && Whole(s1) == s.past.out + [i] + left;
    if left == [] {
      IncreasingSnoc(Whole(s), i);
      assert Whole(s1) == Whole(s) + [i];
    } else {
      var k := |s.past.out|;
      assert Whole(s1)[k] == i && Whole(s1)[k + 1] == left[0] == Whole(s)[k];
    }
  }

  lemma QueuedInOrder(s: State, kind: Kind)
    requires WholeInOrder(s) && s.playing.On?
    ensures WholeInOrder(DoAdd(s, kind))
  {
    hide InHand, Increasing;
    var i := NewItem(kind, s.next);
    WokenHand(s.task);
    IncreasingSnoc(Whole(s), i);
    assert Whole(DoAdd(s, kind)) == Whole(s) + [i];
  }

  lemma FlushInOrder(s: State)
    requires WholeInOrder(s)
    ensures WholeInOrder(DoFlush(s))
  {
    hide InHand, Increasing;
    IncreasingEvents(s.past.out + InHand(s.task), s.pending, s.next);
  }

  lemma WorkInOrder(s: State, keep: Flag, ok: Flag)
    requires WholeInOrder(s) && s.task.Working?
    ensures WholeInOrder(DoWork(s, keep, ok))
  {
    hide Increasing;
    var s1 := DoWork(s, keep, ok);
    match s.task.item
    case None => assert Whole(s1) == Whole(s);
    case Some(i) =>
      if i.Event? || keep.On? {
        assert Whole(s1) == Whole(s);
      } else {
        IncreasingWithout(s.past.out, [i], s.pending, s.next);
        assert Whole(s1) == s.past.out + s.pending;
      }
  }

  lemma TakeInOrder(s: State)
    requires WholeInOrder(s) && s.task.Taking?
    ensures WholeInOrder(DoTake(s))
  {
    hide Increasing;
    if s.pending != [] {
      assert s.pending == [s.pending[0]] + s.pending[1..];
      Associates(s.past.out, [s.pending[0]], s.pending[1..]);
    }
    assert s.past.out + [] == s.past.out;
    assert Whole(DoTake(s)) == Whole(s);
  }

  lemma OtherInOrder(s: State, a: Action)
    requires WholeInOrder(s) && Awake(s) && Enabled(s, a) && !a.Add? && !a.Flush? && !a.Take? && !a.Work?
    ensures WholeInOrder(Next(s, a))
  {
    hide Increasing;
    assert Whole(Next(s, a)) == Whole(s);
  }

  /** The one step that can break the order of adding, and always does: an item that is pushed directly overtakes
      what an earlier playing period has left behind. */
  lemma OrderKeptExactly(s: State, a: Action)
    requires WholeInOrder(s) && Awake(s) && Enabled(s, a)
    ensures WholeInOrder(Next(s, a)) <==> !Overtakes(s, a)
  {
    hide WholeInOrder, InHand;
    match a
    case Add(kind) =>
      if s.playing.On? {
        QueuedInOrder(s, kind);
      } else {
        DirectInOrder(s, kind);
      }
    case Flush => FlushInOrder(s);
    case Take => TakeInOrder(s);
    case Work(keep, ok) => WorkInOrder(s, keep, ok);
    case _ => OtherInOrder(s, a);
  }

  /** No step of the run is an item overtaking others. */
  predicate NoOvertaking(s: State, actions: seq<Action>)
    decreases |actions|
  {
    actions == [] || !Enabled(s, actions[0]) ||
    (!Overtakes(s, actions[0]) && NoOvertaking(Next(s, actions[0]), actions[1..]))
  }

  lemma {:induction false} RunInOrder(s: State, actions: seq<Action>)
    requires WholeInOrder(s) && Awake(s) && NoOvertaking(s, actions)
    ensures Run(s, actions).Some? ==> WholeInOrder(Run(s, actions).value)
    decreases |actions|
  {
    hide WholeInOrder, Awake, Next, Enabled, Overtakes;
    if actions != [] && Run(s, actions).Some? {
      OrderKeptExactly(s, actions[0]);
      NextAwake(s, actions[0]);
      RunInOrder(Next(s, actions[0]), actions[1..]);
    }
  }

  /** As long as nothing overtakes, everything leaves the element in the order of adding, whether queued or pushed
      directly. */
  lemma OverallOrder(actions: seq<Action>)
    requires Run(Start(), actions).Some? && NoOvertaking(Start(), actions)
    ensures Increasing(Whole(Run(Start(), actions).value))
  {
    hide Run, NoOvertaking, Increasing, Awake;
    StartInOrder();
    RunInOrder(Start(), actions);
  }

  lemma StartInOrder()
    ensures WholeInOrder(Start()) && Awake(Start())
  {
  }

  lemma RunFirst(s: State, a: Action, rest: seq<Action>)
    requires Enabled(s, a)
    ensures Run(s, [a] + rest) == Run(Next(s, a), rest)
  {
    hide Next, Enabled;
    assert ([a] + rest)[1..] == rest;
  }

  /** Playing, one item queued, the pad task stopped before it looks. */
  lemma LeavesOneBehind(rest: seq<Action>) returns (actions: seq<Action>, s: State)
    ensures Run(Start(), actions) == Run(s, rest)
    ensures s == Start().(pending := [Buffer(0)], next := 1, past := Start().past.(added := [Buffer(0)]))
  {
    var rest5 := [Join] + rest;
    var rest4 := [SignalStop] + rest5;
    var rest3 := [ClearFlag] + rest4;
    var rest2 := [Add(ABuffer)] + rest3;
    var rest1 := [StartTask] + rest2;
    actions := [SetFlag] + rest1;
    var s1 := Next(Start(), SetFlag);
    RunFirst(Start(), SetFlag, rest1);
    var s2 := Next(s1, StartTask);
    RunFirst(s1, StartTask, rest2);
    var s3 := Next(s2, Add(ABuffer));
    RunFirst(s2, Add(ABuffer), rest3);
    var s4 := Next(s3, ClearFlag);
    RunFirst(s3, ClearFlag, rest4);
    var s5 := Next(s4, SignalStop);
    RunFirst(s4, SignalStop, rest5);
    s := Next(s5, Join);
    RunFirst(s5, Join, rest);
  }

  predicate OutOfOrder(s: State) { s.past.out == [Buffer(1)] && s.pending == [Buffer(0)] }

  /** An item is queued while playing and not taken before the pad task stops; the next one, added while paused, leaves
      first. */
  lemma OvertakingHappens()
    ensures exists actions: seq<Action> :: Run(Start(), actions).Some? && OutOfOrder(Run(Start(), actions).value)
  {
    var last := [Add(ABuffer)] + [];
    var actions, s := LeavesOneBehind(last);
    RunFirst(s, Add(ABuffer), []);
    assert Run(Next(s, Add(ABuffer)), []) == Some(Next(s, Add(ABuffer)));
    assert OutOfOrder(Run(Start(), actions).value);
  }
}
