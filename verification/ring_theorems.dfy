/** No byte is lost, repeated or reordered in the ring; and exactly where that stops being true. */
module DtvRingTheorems {
  import opened Bytes
  import opened DtvRing
  import DtvPat

  function DeviceByte(c: Cell): seq<byte> { if c.Device? then [c.b] else [] }

  function InjectedByte(c: Cell): seq<byte> { if c.Injected? then [c.b] else [] }

  /** The device's bytes: what is left of a stretch of cells without the injected ones. */
  function Erased(cells: seq<Cell>): seq<byte> {
    if cells == [] then [] else DeviceByte(cells[0]) + Erased(cells[1..])
  }

  /** The injected ones. */
  function Inserted(cells: seq<Cell>): seq<byte> {
    if cells == [] then [] else InjectedByte(cells[0]) + Inserted(cells[1..])
  }

  lemma {:induction false} SortedAppend(a: seq<Cell>, b: seq<Cell>)
    ensures Erased(a + b) == Erased(a) + Erased(b)
    ensures Inserted(a + b) == Inserted(a) + Inserted(b)
  {
    hide DeviceByte, InjectedByte;
    if a == [] {
      assert a + b == b;
    } else {
      assert (a + b)[1..] == a[1..] + b;
      SortedAppend(a[1..], b);
    }
  }

  lemma {:induction false} SortedDevice(s: seq<byte>)
    ensures Erased(DeviceCells(s)) == s && Inserted(DeviceCells(s)) == []
  {
    if s == [] {
      assert DeviceCells(s) == [];
    } else {
      assert DeviceCells(s)[1..] == DeviceCells(s[1..]);
      SortedDevice(s[1..]);
    }
  }

  lemma {:induction false} SortedInjected(s: seq<byte>)
    ensures Erased(InjectedCells(s)) == [] && Inserted(InjectedCells(s)) == s
  {
    if s == [] {
      assert InjectedCells(s) == [];
    } else {
      assert InjectedCells(s)[1..] == InjectedCells(s[1..]);
      SortedInjected(s[1..]);
    }
  }

  // --------------------------------------------------------- circular stretches

  lemma CircularGrows(mem: seq<byte>, p: nat, n: nat, more: nat)
    requires |mem| == SIZE && p < SIZE && n + more <= SIZE && Behind(p, n) + more <= SIZE
    ensures Circular(mem, p, n + more) == Circular(mem, p, n) + mem[Behind(p, n)..Behind(p, n) + more]
    ensures Behind(p, n + more) == Moved(Behind(p, n), more)
  {
    if p + n < SIZE {
      Joined(mem, p, p + n, p + n + more);
    } else {
      GrowsRound(mem, p, n, more);
    }
  }

  lemma Joined(mem: seq<byte>, i: nat, j: nat, k: nat)
    requires i <= j <= k <= |mem|
    ensures mem[i..k] == mem[i..j] + mem[j..k]
  {
  }

  lemma GrowsRound(mem: seq<byte>, p: nat, n: nat, more: nat)
    requires |mem| == SIZE && p < SIZE <= p + n && n + more <= SIZE
    ensures Circular(mem, p, n + more) == Circular(mem, p, n) + mem[p + n - SIZE..p + n - SIZE + more]
  {
    hide Circular;
    var w := p + n - SIZE;
    RoundTheEnd(mem, p, n);
    RoundTheEnd(mem, p, n + more);
    Joined(mem, 0, w, w + more);
    Associates(mem[p..], mem[0..w], mem[w..w + more]);
  }

  lemma RoundTheEnd(mem: seq<byte>, p: nat, n: nat)
    requires |mem| == SIZE && p < SIZE <= p + n && n <= SIZE
    ensures Circular(mem, p, n) == mem[p..] + mem[0..p + n - SIZE]
  {
    if p + n == SIZE {
      assert mem[p..] == mem[p..p + n] && mem[0..0] == [];
    } else {
      assert mem[0..p + n - SIZE] == mem[..p + n - SIZE];
    }
  }

  lemma CircularShrinks(mem: seq<byte>, p: nat, n: nat, less: nat)
    requires |mem| == SIZE && p < SIZE && less <= n <= SIZE && p + less <= SIZE
    ensures Circular(mem, p, n) == mem[p..p + less] + Circular(mem, Moved(p, less), n - less)
    ensures less < SIZE ==> Behind(Moved(p, less), n - less) == Behind(p, n)
  {
    if p + n <= SIZE {
      assert mem[p..p + n] == mem[p..p + less] + mem[p + less..p + n];
    } else if p + less < SIZE {
      assert mem[p..] == mem[p..p + less] + mem[p + less..];
      assert mem[p..] + mem[..p + n - SIZE] == mem[p..p + less] + (mem[p + less..] + mem[..p + n - SIZE]);
    } else {
      assert mem[p..] == mem[p..p + less];
    }
  }

  /** Bytes stored into free space leave the unread ones alone. */
  lemma StoredApart(mem: seq<byte>, p: nat, n: nat, data: seq<byte>)
    requires |mem| == SIZE && p < SIZE && n <= SIZE && Behind(p, n) + |data| <= SIZE && n + |data| <= SIZE
    ensures Circular(Overlaid(mem, Behind(p, n), data), p, n) == Circular(mem, p, n)
  {
    hide Overlaid;
    var w := Behind(p, n);
    var mem' := Overlaid(mem, w, data);
    if data == [] {
      OverlaidNothing(mem, w);
    } else if p + n <= SIZE {
      OverlaidElsewhere(mem, w, data, p, p + n);
    } else {
      OverlaidElsewhere(mem, w, data, p, SIZE);
      OverlaidElsewhere(mem, w, data, 0, p + n - SIZE);
      RoundTheEnd(mem, p, n);
      RoundTheEnd(mem', p, n);
      assert mem[p..SIZE] == mem[p..] && mem'[p..SIZE] == mem'[p..];
    }
  }

  /** The first unread byte is where free space ends. */
  lemma FreeEndsAtFirst(p: nat, n: nat)
    requires p < SIZE && 0 < n <= SIZE && Behind(p, n) + (SIZE - n) < SIZE
    ensures Behind(p, n) + (SIZE - n) == p
  {
  }

  /** A read of |data| bytes keeps every unread byte, whatever it stores, exactly when it fits the space there is as
      it happens. */
  lemma ReadKeepsExactly(mem: seq<byte>, p: nat, n: nat, more: nat)
    requires |mem| == SIZE && p < SIZE && n <= SIZE && 0 < more && Behind(p, n) + more <= SIZE
    ensures more <= SIZE - n <==>
      forall data: seq<byte> :: |data| == more ==> Circular(Overlaid(mem, Behind(p, n), data), p, n) == Circular(mem, p, n)
  {
    if more <= SIZE - n {
      forall data: seq<byte> | |data| == more
        ensures Circular(Overlaid(mem, Behind(p, n), data), p, n) == Circular(mem, p, n)
      {
        StoredApart(mem, p, n, data);
      }
    } else {
      FreeEndsAtFirst(p, n);
      var other: byte := if mem[p] == 0 then 1 else 0;
      var data: seq<byte> := seq(more, _ => other);
      StoredAtFirst(mem, p, n, data);
      assert Circular(mem, p, n)[0] == mem[p];
    }
  }

  lemma StoredAtFirst(mem: seq<byte>, p: nat, n: nat, data: seq<byte>)
    requires |mem| == SIZE && p < SIZE && 0 < n <= SIZE && Behind(p, n) + |data| <= SIZE && |data| > SIZE - n
    ensures Overlaid(mem, Behind(p, n), data)[p] == data[SIZE - n]
    ensures Circular(Overlaid(mem, Behind(p, n), data), p, n)[0] == data[SIZE - n]
  {
    FreeEndsAtFirst(p, n);
  }

  // --------------------------------------------------------------- invariant

  /** Pointers and counts agree. */
  predicate Counted(s: State) {
    && Shaped(s) && 0 <= Occupied(s) <= SIZE && s.past.granted >= s.pending
    && s.ring.space == SIZE - Occupied(s) && s.arrived <= s.ring.space && s.pending < SIZE
    && s.ring.write == Behind(NextRead(s), Occupied(s))
  }

  /** The unread part of the buffer holds what was written last. */
  predicate Held(s: State)
    requires Counted(s)
  {
    && Circular(s.ring.mem, NextRead(s), Occupied(s)) == Plain(s.past.written[s.past.granted..])
    && s.arrived <= |s.past.device|
    && s.ring.mem[s.ring.write..s.ring.write + s.arrived] == s.past.device[|s.past.device| - s.arrived..]
  }

  /** What was written is the device's bytes with tables between them, and what was delivered is the front of it. */
  predicate Ordered(s: State)
    requires Counted(s)
  {
    && s.arrived <= |s.past.device|
    && Erased(s.past.written) == s.past.device[..|s.past.device| - s.arrived]
    && s.past.delivered == Plain(s.past.written[..s.past.granted])
  }

  ghost predicate IsTable(t: seq<byte>, n: nat) {
    exists service: nat, pid: nat, version: byte :: t == DtvPat.PatPacket(service, pid, version, n % 16)
  }

  /** A table stands in one piece, and the two packets of the device before it start with the sync byte. */
  predicate Stands(written: seq<Cell>, i: Injection) {
    && 2 * TSPKT <= i.at && i.at + |i.table| <= |written|
    && written[i.at..i.at + |i.table|] == InjectedCells(i.table)
    && written[i.at - TSPKT] == Device(SYNC) && written[i.at - 2 * TSPKT] == Device(SYNC)
  }

  function Contents(tables: seq<Injection>): (r: seq<seq<byte>>)
    ensures |r| == |tables|
  {
    seq(|tables|, n requires 0 <= n < |tables| => tables[n].table)
  }

  /** Nothing but tables is injected; the nth is one, carries n modulo 16, stands whole behind two packets, and comes at
      least the interval after the one before. */
  ghost predicate Numbered(written: seq<Cell>, tables: seq<Injection>, count: byte, stamp: int) {
    && count == DtvPat.CountAfter(|tables|)
    && Inserted(written) == Flatten(Contents(tables))
    && (forall n :: 0 <= n < |tables| ==> IsTable(tables[n].table, n))
    && (forall n :: 0 <= n < |tables| ==> Stands(written, tables[n]))
    && (forall n :: 0 < n < |tables| ==> tables[n].time - tables[n - 1].time >= PAT_INTERVAL_MS)
    && (tables != [] ==> stamp == tables[|tables| - 1].time)
  }

  ghost predicate TablesNumbered(s: State) { Numbered(s.past.written, s.past.tables, s.pat.count, s.pat.stamp) }

  ghost predicate Inv(s: State) { Counted(s) && Held(s) && Ordered(s) && TablesNumbered(s) }

  /** The conditions under which the ring is used as it is meant to be: a read finds room as it happens, and a grant
      finds some bytes but not a full buffer. */
  predicate Clean(s: State, a: Action) {
    match a
    case Read(data) => |data| <= s.ring.space
    case Grant => 0 < Occupied(s) < SIZE
    case _ => true
  }

  lemma ReadKeeps(s: State, data: seq<byte>)
    requires Inv(s) && s.arrived == 0 && s.ring.write + |data| <= SIZE && |data| <= s.ring.space
    ensures Inv(DoRead(s, data))
  {
    hide Erased, Inserted, Circular, Overlaid, Plain, Numbered;
    StoredApart(s.ring.mem, NextRead(s), Occupied(s), data);
    OverlaidPart(s.ring.mem, s.ring.write, data);
    var d := s.past.device;
    assert (d + data)[|d|..] == data && (d + data)[..|d|] == d[..|d|];
  }

  lemma PlainDevice(s: seq<byte>)
    ensures Plain(DeviceCells(s)) == s && Plain(InjectedCells(s)) == s
  {
  }

  lemma PlainAppend(written: seq<Cell>, granted: nat, more: seq<Cell>)
    requires granted <= |written|
    ensures Plain((written + more)[granted..]) == Plain(written[granted..]) + Plain(more)
    ensures Plain((written + more)[..granted]) == Plain(written[..granted])
  {
    assert (written + more)[granted..] == written[granted..] + more;
    assert (written + more)[..granted] == written[..granted];
  }

  lemma StandsStill(written: seq<Cell>, more: seq<Cell>, i: Injection)
    requires Stands(written, i)
    ensures Stands(written + more, i)
  {
    SlicedFirst(written, more, i.at, i.at + |i.table|);
  }

  lemma AllStandStill(written: seq<Cell>, more: seq<Cell>, tables: seq<Injection>)
    requires forall n :: 0 <= n < |tables| ==> Stands(written, tables[n])
    ensures forall n :: 0 <= n < |tables| ==> Stands(written + more, tables[n])
  {
    forall n | 0 <= n < |tables| ensures Stands(written + more, tables[n]) {
      StandsStill(written, more, tables[n]);
    }
  }

  lemma StoreKeepsTables(s: State)
    requires Shaped(s) && TablesNumbered(s)
    ensures TablesNumbered(Store(s))
  {
    hide Inserted, DeviceCells, IsTable, Flatten, Stands, Contents;
    var w, n := s.ring.write, s.arrived;
    var cells := DeviceCells(s.ring.mem[w..w + n]);
    AllStandStill(s.past.written, cells, s.past.tables);
    SortedAppend(s.past.written, cells);
    SortedDevice(s.ring.mem[w..w + n]);
    assert Inserted(s.past.written) + [] == Inserted(s.past.written);
  }

  lemma StoreKeeps(s: State)
    requires Inv(s)
    ensures Inv(Store(s)) && s.ring.space >= s.arrived
  {
    hide Erased, Inserted, Circular, Plain, DeviceCells, Numbered;
    var n, w, d := s.arrived, s.ring.write, s.past.device;
    var cells := DeviceCells(s.ring.mem[w..w + n]);
    CircularGrows(s.ring.mem, NextRead(s), Occupied(s), n);
    PlainAppend(s.past.written, s.past.granted, cells);
    PlainDevice(s.ring.mem[w..w + n]);
    SortedAppend(s.past.written, cells);
    SortedDevice(s.ring.mem[w..w + n]);
    assert d[..|d| - n] + d[|d| - n..] == d == d[..|d|];
    StoreKeepsTables(s);
  }

  /** The last two packets written are the device's, from sync byte to sync byte. */
  predicate EndsInPackets(written: seq<Cell>) {
    |written| >= 2 * TSPKT && written[|written| - TSPKT] == Device(SYNC) && written[|written| - 2 * TSPKT] == Device(SYNC)
  }

  /** The test for full packets looks at bytes just stored. */
  lemma FullPacketEnds(s: State)
    requires Shaped(s) && FullPacket(s.ring, s.arrived)
    ensures EndsInPackets(Store(s).past.written)
  {
    var w, n := s.ring.write, s.arrived;
    var cells := DeviceCells(s.ring.mem[w..w + n]);
    assert cells[n - TSPKT] == Device(SYNC) && cells[n - 2 * TSPKT] == Device(SYNC);
  }

  lemma NewTableStands(written: seq<Cell>, table: seq<byte>, now: int)
    requires EndsInPackets(written)
    ensures Stands(written + InjectedCells(table), Injection(table, |written|, now))
  {
    hide InjectedCells;
    assert (written + InjectedCells(table))[|written|..|written| + |table|] == InjectedCells(table);
  }

  lemma ContentsSnoc(tables: seq<Injection>, i: Injection)
    ensures Contents(tables + [i]) == Contents(tables) + [i.table]
  {
  }

  /** The list of tables after one more. */
  lemma InjectNumbers(s: State, now: int)
    requires TablesNumbered(s) && EndsInPackets(s.past.written) && now - s.pat.stamp >= PAT_INTERVAL_MS
    requires Shaped(s) && s.ring.write + TSPKT <= SIZE && s.ring.space >= TSPKT
    ensures TablesNumbered(Inject(s, now))
  {
    hide Erased, Inserted, InjectedCells, Overlaid, TableOf, IsTable, Flatten, Stands, Contents, EndsInPackets;
    var table, written, tables := TableOf(s.pat), s.past.written, s.past.tables;
    var i := Injection(table, |written|, now);
    AllStandStill(written, InjectedCells(table), tables);
    NewTableStands(written, table, now);
    ContentsSnoc(tables, i);
    FlattenSnoc(Contents(tables), table);
    SortedAppend(written, InjectedCells(table));
    SortedInjected(table);
    TableCounted(s.pat, |tables|);
  }

  lemma InjectKeeps(s: State, now: int)
    requires Inv(s) && s.arrived == 0 && s.ring.write + TSPKT <= SIZE && s.ring.space >= TSPKT
    requires EndsInPackets(s.past.written) && now - s.pat.stamp >= PAT_INTERVAL_MS
    ensures Inv(Inject(s, now))
  {
    hide Erased, Circular, Plain, InjectedCells, Overlaid, TableOf, TablesNumbered, EndsInPackets;
    var table, w := TableOf(s.pat), s.ring.write;
    var mem := Overlaid(s.ring.mem, w, table);
    StoredApart(s.ring.mem, NextRead(s), Occupied(s), table);
    OverlaidPart(s.ring.mem, w, table);
    CircularGrows(mem, NextRead(s), Occupied(s), TSPKT);
    PlainAppend(s.past.written, s.past.granted, InjectedCells(table));
    PlainDevice(table);
    SortedAppend(s.past.written, InjectedCells(table));
    SortedInjected(table);
    assert Erased(s.past.written) + [] == Erased(s.past.written);
    InjectNumbers(s, now);
  }

  lemma TableCounted(p: Pat, n: nat)
    requires p.count == DtvPat.CountAfter(n)
    ensures IsTable(TableOf(p), n) && (p.count + 1) % 256 == DtvPat.CountAfter(n + 1)
  {
    hide DtvPat.PatPacket;
    DtvPat.CountIsModular(n);
    DtvPat.LowFour(n);
    assert TableOf(p) == DtvPat.PatPacket(p.service, p.pid, p.version, n % 16);
  }

  /** The contiguous bytes a clean grant may take. */
  lemma AvailableWithin(s: State)
    requires Counted(s) && s.pending == 0 && 0 < Occupied(s) < SIZE
    ensures 0 < Available(s.ring) <= Occupied(s) && s.ring.read + Available(s.ring) <= SIZE
  {
  }

  lemma GrantKeeps(s: State, n: nat)
    requires Inv(s) && s.pending == 0 && n <= Occupied(s) && n < SIZE && s.ring.read + n <= SIZE
    ensures Inv(DoGrant(s, n))
  {
    hide Erased, Inserted, Circular, Plain, Numbered;
    var g, written := s.past.granted, s.past.written;
    CircularShrinks(s.ring.mem, s.ring.read, Occupied(s), n);
    PlainSplit(written, g, n);
    FrontSame(s.ring.mem[s.ring.read..s.ring.read + n], Circular(s.ring.mem, Moved(s.ring.read, n), Occupied(s) - n),
              Plain(written[g..g + n]), Plain(written[g + n..]));
  }

  lemma PlainSplit(written: seq<Cell>, g: nat, n: nat)
    requires g + n <= |written|
    ensures Plain(written[g..]) == Plain(written[g..g + n]) + Plain(written[g + n..])
    ensures Plain(written[..g + n]) == Plain(written[..g]) + Plain(written[g..g + n])
  {
  }

  lemma FrontSame(a: seq<byte>, b: seq<byte>, c: seq<byte>, d: seq<byte>)
    requires a + b == c + d && |a| == |c|
    ensures a == c && b == d
  {
    assert a == (a + b)[..|a|] && c == (c + d)[..|c|];
    assert b == (a + b)[|a|..] && d == (c + d)[|c|..];
  }

  lemma AdvanceKeeps(s: State)
    requires Inv(s)
    ensures Inv(DoAdvance(s))
  {
    hide Erased, Inserted, Circular, Plain, Numbered;
  }

  /** One step of either thread. */
  function Next(s: State, a: Action, blocksize: nat): State
    requires Shaped(s) && blocksize > 0 && Enabled(s, a, blocksize)
    requires a.Grant? ==> s.ring.read + GrantSize(Available(s.ring), blocksize) <= SIZE
  {
    match a
    case Read(data) => DoRead(s, data)
    case Commit(now) => DoCommit(s, now)
    case Grant => DoGrant(s, GrantSize(Available(s.ring), blocksize))
    case Advance => DoAdvance(s)
    case NewTable(service, pid) => DoNewTable(s, service, pid)
  }

  /** In clean use no grant crosses the end of the buffer. */
  lemma CleanGrantInside(s: State, blocksize: nat)
    requires Counted(s) && s.pending == 0 && 0 < Occupied(s) < SIZE && blocksize > 0
    ensures var n := GrantSize(Available(s.ring), blocksize);
      0 < n <= Occupied(s) && s.ring.read + n <= SIZE
  {
    hide GrantSize;
    AvailableWithin(s);
    GrantSizeFits(Available(s.ring), blocksize);
  }

  lemma NextKeeps(s: State, a: Action, blocksize: nat)
    requires Inv(s) && blocksize > 0 && Enabled(s, a, blocksize) && Clean(s, a)
    ensures a.Grant? ==> s.ring.read + GrantSize(Available(s.ring), blocksize) <= SIZE
    ensures Inv(Next(s, a, blocksize))
  {
    hide Inv, Inserted, EndsInPackets, Store, Inject, DoRead, DoGrant, DoAdvance, GrantSize, Circular, Erased;
    hide Plain, FullPacket;
    assert Counted(s) by { Parts(s); }
    match a
    case Read(data) => ReadKeeps(s, data);
    case Commit(now) =>
      StoreKeeps(s);
      Parts(Store(s));
      Stored(s);
      if Injects(Store(s).ring, FullPacket(s.ring, s.arrived), s.pat.stamp, now) {
        FullPacketEnds(s);
        InjectKeeps(Store(s), now);
      }
    case Grant =>
      CleanGrantInside(s, blocksize);
      GrantKeeps(s, GrantSize(Available(s.ring), blocksize));
    case Advance => AdvanceKeeps(s);
    case NewTable(service, pid) => NewTableKeeps(s, service, pid);
  }

  lemma Parts(s: State)
    requires Inv(s)
    ensures Counted(s) && Shaped(s)
  {
  }

  lemma Stored(s: State)
    requires Shaped(s)
    ensures Store(s).arrived == 0 && Store(s).pat == s.pat
  {
  }

  lemma NewTableKeeps(s: State, service: nat, pid: nat)
    requires Inv(s)
    ensures Inv(DoNewTable(s, service, pid))
  {
    hide Erased, Inserted, Circular, Plain, Numbered;
  }

  // ------------------------------------------------------------------- runs

  predicate Start(s: State) {
    && |s.ring.mem| == SIZE && s.ring.read == s.ring.write == 0 && s.ring.space == SIZE
    && s.arrived == 0 && s.pending == 0 && s.pat.count == 0
    && s.past == History([], [], 0, [], [])
  }

  /** The state after a run in which every step is possible and clean. */
  ghost function Run(s: State, actions: seq<Action>, blocksize: nat): (r: Option<State>)
    requires Inv(s) && blocksize > 0
    ensures r.Some? ==> Inv(r.value)
    decreases |actions|
  {
    if actions == [] then Some(s)
    else if Enabled(s, actions[0], blocksize) && Clean(s, actions[0]) then
      NextKeeps(s, actions[0], blocksize);
      Run(Next(s, actions[0], blocksize), actions[1..], blocksize)
    else None
  }

  /** An empty ring satisfies what every step keeps. */
  lemma StartHolds(s: State)
    requires Start(s)
    ensures Inv(s)
  {
    hide IsTable;
    assert Circular(s.ring.mem, 0, 0) == [] && Plain([]) == [];
  }

  lemma {:induction false} ErasedPrefix(cells: seq<Cell>, n: nat)
    requires n <= |cells|
    ensures Erased(cells[..n]) <= Erased(cells)
  {
    assert cells[..n] + cells[n..] == cells;
    SortedAppend(cells[..n], cells[n..]);
  }

  /** After any clean run: the pointers are in the buffer, they are apart by what the counts say, what was granted
      is the device's bytes in order with tables between them, and these stand whole behind two packets, are
      numbered by their continuity counters, and keep the interval. */
  lemma EveryCleanRun(s0: State, actions: seq<Action>, blocksize: nat)
    requires Start(s0) && blocksize > 0
    ensures Inv(s0)
    ensures Run(s0, actions, blocksize).Some? ==>
      var s := Run(s0, actions, blocksize).value;
      && s.ring.read < SIZE && s.ring.write < SIZE && 0 <= s.ring.space <= SIZE
      && (s.ring.write - s.ring.read - (SIZE - s.ring.space + s.pending)) % SIZE == 0
      && s.past.granted <= |s.past.written|
      && s.past.delivered == Plain(s.past.written[..s.past.granted])
      && Erased(s.past.written[..s.past.granted]) <= s.past.device
      && TablesNumbered(s)
  {
    hide Erased, Inserted, Circular, Plain, IsTable, Flatten, Start;
    StartHolds(s0);
    if Run(s0, actions, blocksize).Some? {
      var s := Run(s0, actions, blocksize).value;
      ErasedPrefix(s.past.written, s.past.granted);
      PointersCongruent(s);
    }
  }

  lemma PointersCongruent(s: State)
    requires Counted(s)
    ensures (s.ring.write - s.ring.read - (SIZE - s.ring.space + s.pending)) % SIZE == 0
  {
    var apart: int := s.ring.write - s.ring.read - (SIZE - s.ring.space + s.pending);
    assert apart == 0 || apart + SIZE == 0 || apart + 2 * SIZE == 0;
  }

  // -------------------------------------------------- where the limits lie

  /** Equal pointers mean nothing to read or a full buffer, and the code always takes the latter: a grant stays
      inside the buffer and among the unread bytes exactly when there are some but not a full buffer, or a full one
      whose whole blocks end by the end of the buffer. */
  lemma GrantExactly(s: State, blocksize: nat)
    requires Counted(s) && s.pending == 0 && blocksize > 0
    ensures var n := GrantSize(Available(s.ring), blocksize);
      n <= Occupied(s) && s.ring.read + n <= SIZE <==>
      0 < Occupied(s) < SIZE || (Occupied(s) == SIZE && s.ring.read + GrantSize(SIZE, blocksize) <= SIZE)
  {
    hide GrantSize;
    GrantSizeFits(Available(s.ring), blocksize);
    GrantSizeFits(SIZE, blocksize);
    if 0 < Occupied(s) < SIZE {
      AvailableWithin(s);
    }
  }

  /** The overflow test comes too late. Of a read into too little space, followed by a grant, it sees nothing exactly if
      the grant makes up for the missing space; and the first byte granted is the right one exactly if what the read
      stored over it happens to be the same. */
  lemma OverflowUnnoticed(s: State, data: seq<byte>, n: nat)
    requires Inv(s) && s.arrived == 0 && s.pending == 0 && s.ring.space < |data| && s.ring.write + |data| <= SIZE
    requires 0 < n <= Occupied(s) && s.ring.read + n <= SIZE
    ensures var s2, unread := DoGrant(DoRead(s, data), n), Plain(s.past.written[s.past.granted..]);
      && (s2.arrived <= s2.ring.space <==> |data| <= s.ring.space + n)
      && s2.past.delivered[|s.past.delivered|] == data[s.ring.space]
      && (s2.past.delivered[|s.past.delivered|] == unread[0] <==> data[s.ring.space] == s.ring.mem[s.ring.read])
  {
    hide Erased, Inserted, Plain, Overlaid;
    StoredAtFirst(s.ring.mem, s.ring.read, Occupied(s), data);
    assert Circular(s.ring.mem, s.ring.read, Occupied(s))[0] == s.ring.mem[s.ring.read];
  }
}
