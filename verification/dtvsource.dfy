/** The dtvsource element's ring buffer in memory: each locked section of its two threads as a method. */
module DtvSource {
  import opened Bytes
  import opened DtvRing
  import DtvPat
  import Psi
  import Crc

  class Source {
    const buffer: array<byte>
    const currentPat: array<byte>
    var readPtr: nat
    var writePtr: nat
    var spaceInBuffer: nat
    var patCount: byte
    var patVersion: byte
    var lastPatTimestamp: int
    // What the threads hold in local variables, what the table was made from, and what has happened.
    ghost var arrived: nat
    ghost var pending: nat
    ghost var made: Pat
    ghost var past: History

    ghost predicate Valid()
      reads this, currentPat
    {
      && buffer.Length == SIZE && currentPat.Length == TSPKT && buffer != currentPat
      && made.version == patVersion && made.count == patCount && made.stamp == lastPatTimestamp
      && exists continuity: byte :: currentPat[..] == DtvPat.PatPacket(made.service, made.pid, made.version, continuity)
    }

    ghost function View(): State
      reads this, buffer
    {
      State(Ring(buffer[..], readPtr, writePtr, spaceInBuffer), arrived, pending, made, past)
    }

    /** read(): the device stores into the buffer at the write pointer. */
    method Read(data: array<byte>)
      requires Valid() && Shaped(View()) && arrived == 0 && writePtr + data.Length <= SIZE
      requires data != buffer && data != currentPat
      modifies buffer, `arrived, `past
      ensures Valid() && View() == DoRead(old(View()), data[..])
    {
      CopyIn(data, writePtr);
      arrived := data.Length;
      past := past.(device := past.device + data[..]);
    }

    method CopyIn(data: array<byte>, at: nat)
      requires at + data.Length <= buffer.Length && data != buffer
      modifies buffer
      ensures buffer[..] == Overlaid(old(buffer[..]), at, data[..])
    {
      for i := 0 to data.Length
        invariant buffer[..at] == old(buffer[..at]) && buffer[at + data.Length..] == old(buffer[at + data.Length..])
        invariant buffer[at..at + i] == data[..i]
      {
        buffer[at + i] := data[i];
      }
    }

    /** The reading thread between taking and releasing the lock, and whether it then signals. */
    method Commit(nbytes: nat, now: int, blocksize: nat) returns (signal: bool)
      requires Valid() && Shaped(View()) && nbytes == arrived
      modifies this, buffer, currentPat
      ensures Valid() && View() == DoCommit(old(View()), now)
      ensures signal <==> SIZE - spaceInBuffer >= blocksize
    {
      hide DtvPat.PatPacket, Overlaid, DeviceCells, InjectedCells, TableOf;
      ghost var s := View();
      var full := Account(nbytes);
      if full && now - lastPatTimestamp >= PAT_INTERVAL_MS && spaceInBuffer >= TSPKT && SIZE - writePtr >= TSPKT {
        InjectTable(now);
      }
      signal := SIZE - spaceInBuffer >= blocksize;
    }

    /** The space and the pointer after a read, and whether it ended with two whole packets. */
    method Account(nbytes: nat) returns (full: bool)
      requires Valid() && Shaped(View()) && nbytes == arrived
      modifies `spaceInBuffer, `writePtr, `arrived, `past
      ensures Valid() && View() == Store(old(View()))
      ensures full <==> FullPacket(old(View()).ring, nbytes)
    {
      hide DtvPat.PatPacket;
      past := past.(written := past.written + DeviceCells(buffer[..][writePtr..writePtr + nbytes]));
      arrived := 0;
      if spaceInBuffer < nbytes {
        spaceInBuffer := 0;
      } else {
        spaceInBuffer := spaceInBuffer - nbytes;
      }
      writePtr := writePtr + nbytes;
      full := nbytes >= TSPKT * 2 && buffer[writePtr - TSPKT] == SYNC && buffer[writePtr - 2 * TSPKT] == SYNC;
      if writePtr == SIZE {
        writePtr := 0;
      }
    }

    /** The injection: the continuity counter is stamped, and the table copied in. */
    method InjectTable(now: int)
      requires Valid() && Shaped(View()) && arrived == 0 && writePtr + TSPKT <= SIZE && spaceInBuffer >= TSPKT
      modifies this, buffer, currentPat
      ensures Valid() && View() == Inject(old(View()), now)
    {
      hide DtvPat.PatPacket, Overlaid, InjectedCells;
      ghost var s := View();
      ghost var continuity: byte :| currentPat[..] == DtvPat.PatPacket(made.service, made.pid, made.version, continuity);
      DtvPat.StampedTable(made.service, made.pid, made.version, continuity, patCount);
      DtvPat.SameContinuity(made.service, made.pid, made.version, patCount, patCount % 16);
      patCount := DtvPat.StampContinuity(currentPat, patCount);
      ghost var table := currentPat[..];
      assert table == TableOf(made);
      CopyIn(currentPat, writePtr);
      lastPatTimestamp := now;
      past := past.(written := past.written + InjectedCells(table),
                    tables := past.tables + [Injection(table, |past.written|, now)]);
      made := made.(count := patCount, stamp := now);
      assert currentPat[..] == table;
      spaceInBuffer := spaceInBuffer - TSPKT;
      writePtr := writePtr + TSPKT;
      if writePtr == SIZE {
        writePtr := 0;
      }
    }

    /** The length of the next buffer to hand out. */
    method TakeSize(blocksize: nat) returns (size: nat)
      requires blocksize > 0 && readPtr < SIZE && writePtr < SIZE
      ensures size == GrantSize(Available(Ring(buffer[..], readPtr, writePtr, spaceInBuffer)), blocksize)
    {
      var available: nat := SIZE - readPtr;
      if writePtr >= readPtr {
        available := writePtr - readPtr;
      }
      if available == 0 {
        available := SIZE;
      }
      size := available;
      if available >= blocksize {
        GrantSizeFits(available, blocksize);
        size := available / blocksize * blocksize;
      }
    }

    /** The locked part of create that takes bytes, with the bytes the buffer it wraps holds at that moment. */
    method Grant(blocksize: nat) returns (bytes: seq<byte>)
      requires Valid() && Shaped(View()) && pending == 0 && blocksize > 0
      requires readPtr + GrantSize(Available(View().ring), blocksize) <= SIZE
      modifies `spaceInBuffer, `pending, `past
      ensures Valid() && View() == DoGrant(old(View()), GrantSize(Available(old(View()).ring), blocksize))
      ensures past.delivered == old(past.delivered) + bytes
    {
      hide DtvPat.PatPacket, GrantSize, Available;
      var size := TakeSize(blocksize);
      spaceInBuffer := spaceInBuffer + size;
      bytes := buffer[readPtr..readPtr + size];
      assert bytes == buffer[..][readPtr..readPtr + size];
      pending := size;
      past := past.(granted := past.granted + size, delivered := past.delivered + bytes);
    }

    /** The locked part of create that moves the read pointer. */
    method Advance(size: nat)
      requires Valid() && Shaped(View()) && size == pending
      modifies `readPtr, `pending
      ensures Valid() && View() == DoAdvance(old(View()))
    {
      hide DtvPat.PatPacket;
      readPtr := readPtr + size;
      if readPtr == SIZE {
        readPtr := 0;
      }
      pending := 0;
    }

    /** A changed program map PID or service: the table is made anew under the next version. */
    method NewTable(table: seq<Crc.word>, serviceId: nat, pmtPid: nat)
      requires Valid() && Crc.IsTable(table)
      modifies currentPat, `patVersion, `made
      ensures Valid() && View() == DoNewTable(old(View()), serviceId, pmtPid)
    {
      hide DtvPat.PatPacket;
      patVersion := (patVersion + 1) % 256;
      DtvPat.CreatePat(table, currentPat, serviceId, pmtPid, patVersion);
      made := made.(service := serviceId, pid := pmtPid, version := patVersion);
    }
  }
}
