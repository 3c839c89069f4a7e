/** The program association table dtvsource makes and injects. */
module DtvPat {
  import opened Bytes
  import opened Psi
  import Crc
  import CrcDetects

  const TSPKT: nat := 188

  /** Table id, section length 13, transport stream 1, version, section numbers, one program. */
  function PatSection(service: nat, pid: nat, version: byte): (r: seq<byte>)
    ensures |r| == 12
  {
    [0x00, 0xb0, 0x0d, 0x00, 0x01, 0xc1 + 2 * (version % 32), 0x00, 0x00,
     High8(service), Low8(service), 0xe0 + High5(pid), Low8(pid)]
  }

  /** A packet on PID 0 that starts a section. */
  function PatHead(continuity: byte): (r: seq<byte>)
    ensures |r| == 5
  {
    [SYNC, 0x40, 0x00, 0x10 + continuity % 16, 0x00]
  }

  function PatPacket(service: nat, pid: nat, version: byte, continuity: byte): (r: seq<byte>)
    ensures |r| == TSPKT
  {
    var section := PatSection(service, pid, version);
    PatHead(continuity) + section + CrcBytes(section) + Fill(167)
  }

  /** The statements of dtv_source_create_pat above the CRC. */
  method PutHead(pat: array<byte>)
    requires pat.Length == TSPKT
    modifies pat
    ensures pat[..5] == PatHead(0)
  {
    pat[0] := SYNC;
    pat[1] := 0x40;
    pat[2] := 0x00;
    pat[3] := 0x10;
    pat[4] := 0x00;
  }

  method PutSection(pat: array<byte>, service: nat, pid: nat, version: byte)
    requires pat.Length == TSPKT
    modifies pat
    ensures pat[..5] == old(pat[..5]) && pat[5..17] == PatSection(service, pid, version)
  {
    hide High5, High8, Low8;
    pat[5] := 0x00;
    pat[6] := 0xb0;
    pat[7] := 0x0d;
    pat[8] := 0x00;
    pat[9] := 0x01;
    DoubledVersion(version);
    pat[10] := 0xc1 + 2 * version % 64;
    pat[11] := 0x00;
    pat[12] := 0x00;
    pat[13] := High8(service);
    pat[14] := Low8(service);
    pat[15] := 0xe0 + High5(pid);
    pat[16] := Low8(pid);
  }

  lemma PacketParts(p: seq<byte>, service: nat, pid: nat, version: byte)
    requires |p| == TSPKT && p[..5] == PatHead(0) && p[5..17] == PatSection(service, pid, version)
    requires p[17..21] == CrcBytes(p[5..17]) && p[21..] == Fill(167)
    ensures p == PatPacket(service, pid, version, 0)
  {
    assert p == p[..5] + p[5..17] + p[17..21] + p[21..];
  }

  /** dtv_source_create_pat. The service and the PID are unsigned, the version one byte. */
  method CreatePat(table: seq<Crc.word>, pat: array<byte>, service: nat, pid: nat, version: byte)
    requires Crc.IsTable(table) && pat.Length == TSPKT
    modifies pat
    ensures pat[..] == PatPacket(service, pid, version, 0)
  {
    hide Crc.Register, Octets, PatSection, PatHead, Fill, Values, CrcDetects.BigEndian;
    PutHead(pat);
    PutSection(pat, service, pid, version);
    var crc := CalcCrc32(table, pat, 5, 12, Crc.PRESET);
    ghost var made := pat[..17];
    PutCrc(pat, 17, crc);
    ghost var closed := pat[..21];
    PutFill(pat);
    assert pat[..][..5] == closed[..5] == made[..5];
    assert pat[..][5..17] == closed[5..17] == made[5..17];
    assert pat[..][17..21] == closed[17..21];
    assert pat[..][21..] == pat[21..];
    PacketParts(pat[..], service, pid, version);
  }

  /** The stuffing loop. */
  method PutFill(pat: array<byte>)
    requires pat.Length == TSPKT
    modifies pat
    ensures pat[..21] == old(pat[..21]) && pat[21..] == Fill(167)
  {
    for i := 21 to TSPKT
      invariant pat[..21] == old(pat[..21])
      invariant forall k :: 21 <= k < i ==> pat[k] == FILL
    {
      pat[i] := 0xff;
    }
  }

  /** The part of the read thread that stamps the continuity counter; count is one unsigned byte. */
  method StampContinuity(pat: array<byte>, count: byte) returns (count': byte)
    requires pat.Length == TSPKT
    modifies pat
    ensures pat[..] == old(pat[..])[3 := 0x10 + count % 16]
    ensures count' == (count + 1) % 256
  {
    pat[3] := 0x10 + count % 16;
    count' := (count + 1) % 256;
  }

  /** The one-byte counter after n injections. */
  function CountAfter(n: nat): byte {
    if n == 0 then 0 else (CountAfter(n - 1) + 1) % 256
  }

  /** The packet as injected for the nth time since the start. */
  function Injected(pat: seq<byte>, n: nat): seq<byte>
    requires |pat| == TSPKT
  {
    pat[3 := 0x10 + CountAfter(n) % 16]
  }

  lemma NextModulo(m: nat)
    ensures (m % 256 + 1) % 256 == (m + 1) % 256
  {
    var q, r := m / 256, m % 256;
    if r == 255 {
      assert m + 1 == 256 * (q + 1);
    } else {
      assert m + 1 == 256 * q + (r + 1);
    }
  }

  lemma LowFour(n: nat)
    ensures n % 256 % 16 == n % 16
  {
    var q, r := n / 256, n % 256;
    assert n == 256 * q + r;
    assert n == 16 * (16 * q + r / 16) + r % 16;
  }

  lemma {:induction false} CountIsModular(n: nat)
    ensures CountAfter(n) == n % 256
  {
    if n > 0 {
      CountIsModular(n - 1);
      NextModulo(n - 1);
    }
  }

  lemma HeadOnly(a: seq<byte>, b: seq<byte>, c: seq<byte>, d: seq<byte>, e: seq<byte>, x: byte)
    requires |a| > 3 && b == a[3 := x]
    ensures (a + c + d + e)[3 := x] == b + c + d + e
  {
  }

  /** Stamping a continuity counter on a table leaves its section, and so its CRC, alone. */
  lemma StampedTable(service: nat, pid: nat, version: byte, continuity: byte, count: byte)
    ensures PatPacket(service, pid, version, continuity)[3 := 0x10 + count % 16] == PatPacket(service, pid, version, count)
  {
    hide PatSection, CrcBytes, Fill;
    var section := PatSection(service, pid, version);
    HeadOnly(PatHead(continuity), PatHead(count), section, CrcBytes(section), Fill(167), 0x10 + count % 16);
  }

  /** The nth table injected carries n modulo 16, across the wrap of the counter, and the section is as created. */
  lemma InjectedCarriesCount(service: nat, pid: nat, version: byte, continuity: byte, n: nat)
    ensures Injected(PatPacket(service, pid, version, continuity), n) == PatPacket(service, pid, version, n % 16)
  {
    hide PatPacket, CountAfter;
    CountIsModular(n);
    LowFour(n);
    StampedTable(service, pid, version, continuity, CountAfter(n));
    SameContinuity(service, pid, version, CountAfter(n), n % 16);
  }

  lemma SameContinuity(service: nat, pid: nat, version: byte, a: byte, b: byte)
    requires a % 16 == b
    ensures PatPacket(service, pid, version, a) == PatPacket(service, pid, version, b)
  {
    hide PatSection, CrcBytes, Fill;
    assert PatHead(a) == PatHead(b);
  }

  /** So every table injected passes the decoder of Annex A. */
  lemma PatChecks(service: nat, pid: nat, version: byte, n: nat)
    ensures Checks(PatPacket(service, pid, version, n % 256)[5..21])
  {
    var section := PatSection(service, pid, version);
    SectionChecks(section);
    assert PatPacket(service, pid, version, n % 256)[5..21] == section + CrcBytes(section);
  }
}
