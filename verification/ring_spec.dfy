/**
 The ring buffer between dtvsource's reading thread and its create function, one step for each thing either
 thread does between two points where the other may run.
*/
module DtvRing {
  import opened Bytes
  import DtvPat

  const SIZE: nat := 188 * 4096
  const TSPKT: nat := 188
  const SYNC: byte := 0x47
  const PAT_INTERVAL_MS: int := 100

  /** A written byte, and whether the device or the table injection wrote it. */
  datatype Cell = Device(b: byte) | Injected(b: byte)

  /** The buffer, the offsets of its two pointers, and space_in_buffer. */
  datatype Ring = Ring(mem: seq<byte>, read: nat, write: nat, space: nat)

  /** current_pat as last created, pat_count and last_pat_timestamp. */
  datatype Pat = Pat(service: nat, pid: nat, version: byte, count: byte, stamp: int)

  /** An injected table, where it is in what was written, and when it was injected. */
  datatype Injection = Injection(table: seq<byte>, at: nat, time: int)

  /** What has happened: not part of the element. */
  datatype History = History(device: seq<byte>, written: seq<Cell>, granted: nat, delivered: seq<byte>, tables: seq<Injection>)

  /** arrived: bytes the device has stored that are not yet accounted for. pending: bytes granted whose pointer move
      is still to come. */
  datatype State = State(ring: Ring, arrived: nat, pending: nat, pat: Pat, past: History)

  datatype Action =
    | Read(data: seq<byte>)                  // read() stores into the buffer, no lock held
    | Commit(now: int)                       // the locked part of the reading thread, at a time in milliseconds
    | Grant                                  // the locked part of create that takes bytes
    | Advance                                // the locked part of create that moves the read pointer
    | NewTable(service: nat, pid: nat)       // dtv_source_create_pat

  // ---------------------------------------------------------------- pointers

  /** A pointer moved on by n, at most to the end, where it wraps. */
  function Moved(p: nat, n: nat): nat {
    if p + n == SIZE then 0 else p + n
  }

  /** bytes_to_read. */
  function ReadLimit(r: Ring, blocksize: nat): nat
    requires r.write < SIZE
  {
    if r.write + blocksize > SIZE then SIZE - r.write else blocksize
  }

  /** bytes_available: equal pointers are taken for a full buffer. */
  function Available(r: Ring): nat
    requires r.read < SIZE && r.write < SIZE
  {
    var n := if r.write >= r.read then r.write - r.read else SIZE - r.read;
    if n == 0 then SIZE else n
  }

  /** As many whole blocks as there are, or what there is. */
  function GrantSize(available: nat, blocksize: nat): nat
    requires blocksize > 0
  {
    if available < blocksize then available else available / blocksize * blocksize
  }

  lemma GrantSizeFits(available: nat, blocksize: nat)
    requires blocksize > 0
    ensures GrantSize(available, blocksize) <= available
    ensures available > 0 ==> GrantSize(available, blocksize) > 0
  {
    if available >= blocksize {
      var q := available / blocksize;
      assert available == q * blocksize + available % blocksize;
      assert q >= 1;
      assert q * blocksize >= blocksize;
    }
  }

  // ------------------------------------------------------------------- steps

  /** The last two packets read both start with the sync byte. */
  predicate FullPacket(r: Ring, n: nat)
    requires |r.mem| == SIZE && r.write + n <= SIZE
  {
    n >= TSPKT * 2 && r.mem[r.write + n - TSPKT] == SYNC && r.mem[r.write + n - 2 * TSPKT] == SYNC
  }

  predicate Injects(r: Ring, full: bool, stamp: int, now: int) {
    full && now - stamp >= PAT_INTERVAL_MS && r.space >= TSPKT && r.write + TSPKT <= SIZE
  }

  function Accounted(r: Ring, n: nat): Ring {
    r.(space := if r.space < n then 0 else r.space - n, write := Moved(r.write, n))
  }

  function TableOf(p: Pat): (t: seq<byte>)
    ensures |t| == TSPKT
  {
    DtvPat.PatPacket(p.service, p.pid, p.version, p.count % 16)
  }

  function DeviceCells(s: seq<byte>): (r: seq<Cell>)
    ensures |r| == |s|
  {
    seq(|s|, i requires 0 <= i < |s| => Device(s[i]))
  }

  function InjectedCells(s: seq<byte>): (r: seq<Cell>)
    ensures |r| == |s|
  {
    seq(|s|, i requires 0 <= i < |s| => Injected(s[i]))
  }

  function Plain(s: seq<Cell>): (r: seq<byte>)
    ensures |r| == |s|
  {
    seq(|s|, i requires 0 <= i < |s| => s[i].b)
  }

  /** The state has the shape every step expects; only this is needed for the steps to make sense. */
  predicate Shaped(s: State) {
    && |s.ring.mem| == SIZE && s.ring.read < SIZE && s.ring.write < SIZE
    && s.ring.write + s.arrived <= SIZE && s.ring.read + s.pending <= SIZE
  }

  predicate Enabled(s: State, a: Action, blocksize: nat)
    requires Shaped(s)
  {
    match a
    case Read(data) => s.arrived == 0 && 0 < |data| <= ReadLimit(s.ring, blocksize)
    case Commit(_) => s.arrived > 0
    case Grant => s.pending == 0
    case Advance => s.pending > 0
    case NewTable(_, _) => s.arrived == 0
  }

  function DoRead(s: State, data: seq<byte>): State
    requires Shaped(s) && s.ring.write + |data| <= SIZE
  {
    s.(ring := s.ring.(mem := Overlaid(s.ring.mem, s.ring.write, data)), arrived := |data|,
       past := s.past.(device := s.past.device + data))
  }

  function Store(s: State): State
    requires Shaped(s)
  {
    var n := s.arrived;
    s.(ring := Accounted(s.ring, n), arrived := 0,
       past := s.past.(written := s.past.written + DeviceCells(s.ring.mem[s.ring.write..s.ring.write + n])))
  }

  function Inject(s: State, now: int): State
    requires Shaped(s) && s.ring.write + TSPKT <= SIZE && s.ring.space >= TSPKT
  {
    var table := TableOf(s.pat);
    var r := s.ring.(mem := Overlaid(s.ring.mem, s.ring.write, table));
    s.(ring := Accounted(r, TSPKT), pat := s.pat.(count := (s.pat.count + 1) % 256, stamp := now),
       past := s.past.(written := s.past.written + InjectedCells(table),
                       tables := s.past.tables + [Injection(table, |s.past.written|, now)]))
  }

  function DoCommit(s: State, now: int): State
    requires Shaped(s)
  {
    var s1 := Store(s);
    if Injects(s1.ring, FullPacket(s.ring, s.arrived), s.pat.stamp, now) then Inject(s1, now) else s1
  }

  /** The bytes are looked at when they are granted. A grant past the end is not one of C's defined behaviours. */
  function DoGrant(s: State, n: nat): State
    requires Shaped(s) && s.ring.read + n <= SIZE
  {
    s.(ring := s.ring.(space := s.ring.space + n), pending := n,
       past := s.past.(granted := s.past.granted + n,
                       delivered := s.past.delivered + s.ring.mem[s.ring.read..s.ring.read + n]))
  }

  function DoAdvance(s: State): State
    requires Shaped(s)
  {
    s.(ring := s.ring.(read := Moved(s.ring.read, s.pending)), pending := 0)
  }

  function DoNewTable(s: State, service: nat, pid: nat): State {
    s.(pat := s.pat.(service := service, pid := pid, version := (s.pat.version + 1) % 256))
  }

  // ------------------------------------------------------------- occupancy

  /** Bytes written and not granted. */
  function Occupied(s: State): int { |s.past.written| - s.past.granted }

  /** Where the next grant starts once the pending one is over. */
  function NextRead(s: State): nat { Moved(s.ring.read, s.pending) }

  /** n bytes from p, going round at the end. */
  function Circular(mem: seq<byte>, p: nat, n: nat): (r: seq<byte>)
    requires |mem| == SIZE && p < SIZE && n <= SIZE
    ensures |r| == n
  {
    if p + n <= SIZE then mem[p..p + n] else mem[p..] + mem[..p + n - SIZE]
  }

  /** Where n bytes from p end. */
  function Behind(p: nat, n: nat): nat
    requires p < SIZE && n <= SIZE
  {
    if p + n < SIZE then p + n else p + n - SIZE
  }
}
