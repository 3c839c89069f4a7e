/** The program map table dtcpencrypt prints: its stream lists, its bytes and its size. */
module PmtPrint {
  import opened Bytes
  import opened Psi

  /** newPMT holds three packets of the longer kind. */
  const CACHE: nat := 576

  /** The two packet sizes; the longer one starts with a four-byte time stamp. */
  type packetsize = ts: nat | ts == 188 || ts == 192 witness 188

  function Stamp(ts: packetsize): (r: nat)
    ensures r + 188 == ts
  {
    if ts == 192 then 4 else 0
  }

  /** One elementary stream. A missing language and an empty one print alike and are both the empty name. */
  datatype Stream = Stream(kind: byte, pid: nat, name: seq<byte>)

  datatype Listing = Listing(video: seq<Stream>, audio: seq<Stream>, data: seq<Stream>)

  datatype Header = Header(pmtPid: nat, program: nat, version: nat, pcrPid: nat, cci: byte)

  function All(l: Listing): seq<Stream> { l.video + l.audio + l.data }

  /** Type, PID, and an ISO 639 language descriptor where there is a name. */
  function EntryBytes(s: Stream): (r: seq<byte>)
    ensures |r| == if s.name == [] then 5 else 8 + |s.name|
  {
    [s.kind, 0xe0 + High5(s.pid), Low8(s.pid), 0xf0] +
    (if s.name == [] then [] else [Low8(3 + |s.name|), 0x0a, Low8(1 + |s.name|)] + s.name) + [0x00]
  }

  function Entries(ss: seq<Stream>): seq<byte> {
    if ss == [] then [] else EntryBytes(ss[0]) + Entries(ss[1..])
  }

  lemma {:induction false} EntriesAppend(a: seq<Stream>, b: seq<Stream>)
    ensures Entries(a + b) == Entries(a) + Entries(b)
  {
    if a == [] {
      assert a + b == b;
    } else {
      assert (a + b)[1..] == a[1..] + b;
      EntriesAppend(a[1..], b);
    }
  }

  lemma EntriesSnoc(a: seq<Stream>, s: Stream)
    ensures Entries(a + [s]) == Entries(a) + EntryBytes(s)
  {
    EntriesAppend(a, [s]);
    assert [s][1..] == [];
    assert EntryBytes(s) + [] == EntryBytes(s);
  }

  /** Copy control bits: encryption plus non-assertion applies to copy-free content only. */
  predicate Epn(cci: byte) { cci % 4 == 0 && cci / 32 % 2 == 1 }

  predicate Ict(cci: byte) { cci / 16 % 2 == 1 }

  /** The DTCP descriptor. */
  function Descriptor(cci: byte): (r: seq<byte>)
    ensures |r| == 6
  {
    [0x88, 0x04, 0x0f, 0xff,
     0xc0 + (if Epn(cci) then 4 else 0) + cci % 4,
     0xf8 + (if Ict(cci) then 4 else 0) + cci / 4 % 4]
  }

  /** Exactly what of the copy control information a receiver can tell from the descriptor. */
  lemma DescriptorCarries(a: byte, b: byte)
    ensures Descriptor(a) == Descriptor(b) <==>
            a % 32 == b % 32 && (a % 4 == 0 ==> a / 32 % 2 == b / 32 % 2)
  {
    FiveBits(a);
    FiveBits(b);
    if Descriptor(a) == Descriptor(b) {
      assert Descriptor(a)[4] == Descriptor(b)[4] && Descriptor(a)[5] == Descriptor(b)[5];
    } else {
      assert Descriptor(a)[4] != Descriptor(b)[4] || Descriptor(a)[5] != Descriptor(b)[5];
    }
  }

  lemma FiveBits(a: byte)
    ensures a % 32 == a % 4 + 4 * (a / 4 % 4) + 16 * (a / 16 % 2)
  {
    var q, h := a / 4, a / 16;
    assert h == q / 4 && a / 32 == h / 2;
    assert a == 4 * q + a % 4 && q == 4 * h + q % 4 && h == 2 * (a / 32) + h % 2;
  }

  function SectionLength(l: Listing): nat { 19 + |Entries(All(l))| }

  function SectionFront(h: Header, length: nat): (r: seq<byte>)
    ensures |r| == 12
  {
    [0x02, 0xb0 + length / 256 % 16, Low8(length), High8(h.program), Low8(h.program), 0xc1 + 2 * (h.version % 32),
     0x00, 0x00, 0xe0 + High5(h.pcrPid), Low8(h.pcrPid), 0xf0, 0x06]
  }

  /** The section up to its CRC. */
  function Section(h: Header, l: Listing): (r: seq<byte>)
    ensures |r| == 18 + |Entries(All(l))|
  {
    SectionFront(h, SectionLength(l)) + Descriptor(h.cci) + Entries(All(l))
  }

  function PacketHead(pmtPid: nat): (r: seq<byte>)
    ensures |r| == 5
  {
    [SYNC, 0x60 + High5(pmtPid), Low8(pmtPid), 0x10, 0x00]
  }

  /** pmtSize. */
  function Size(ts: packetsize, l: Listing): nat { Stamp(ts) + 27 + |Entries(All(l))| }

  /** The printed table ends in its packet, at the latest with its last byte. */
  predicate Fits(ts: packetsize, l: Listing) { Size(ts, l) <= ts }

  /** The packet behind the time stamp. */
  function Printed(ts: packetsize, h: Header, l: Listing): (r: seq<byte>)
    requires Fits(ts, l)
    ensures |r| == 188
  {
    PacketHead(h.pmtPid) + Section(h, l) + CrcBytes(Section(h, l)) + Fill(ts - Size(ts, l))
  }

  /** The header putPmtByte starts a second packet with. */
  function SecondHead(pmtPid: nat): (r: seq<byte>)
    ensures |r| == 4
  {
    [SYNC, High5(pmtPid), Low8(pmtPid), 0x10]
  }

  /** Where the stuffing goes on from: behind the section, or where putPmtByte has jumped to after the last byte. */
  function FillFrom(ts: packetsize, size: nat): nat {
    if size < ts then size else 2 * ts + Stamp(ts) + 4
  }

  /** newPMT with the packet printed into it. */
  function Cached(ts: packetsize, cache: seq<byte>, h: Header, l: Listing): (r: seq<byte>)
    requires Fits(ts, l) && |cache| == CACHE
    ensures |r| == CACHE
  {
    var from := FillFrom(ts, Size(ts, l));
    var headed := if Size(ts, l) < ts then cache else Overlaid(cache, ts + Stamp(ts), SecondHead(h.pmtPid));
    Overlaid(Overlaid(headed, from, Fill(CACHE - from)), Stamp(ts), Printed(ts, h, l))
  }

  /** How many packets the size computation asks for. */
  function PacketCount(excess: int, ts: packetsize): (n: nat)
    decreases excess
  {
    if excess <= 0 then 1 else 1 + PacketCount(excess - (ts - 8), ts)
  }

  function PacketsFor(ts: packetsize, l: Listing): nat { PacketCount(Size(ts, l) - (ts - 17), ts) }

  predicate Named(s: Stream) { s.name != [] }

  /** A listing whose size the parser bounds: at most eight streams a class, names shorter than 32. */
  ghost predicate Bounded(l: Listing) {
    && |l.video| <= 8 && |l.audio| <= 8 && |l.data| <= 8
    && (forall i :: 0 <= i < |l.video| ==> !Named(l.video[i]))
    && (forall i :: 0 <= i < |l.audio| ==> |l.audio[i].name| < 32)
    && (forall i :: 0 <= i < |l.data| ==> !Named(l.data[i]))
  }

  lemma {:induction false} EntriesAtMost(ss: seq<Stream>, n: nat)
    requires forall i :: 0 <= i < |ss| ==> |EntryBytes(ss[i])| <= n
    ensures |Entries(ss)| <= n * |ss|
  {
    hide EntryBytes;
    if ss != [] {
      EntriesAtMost(ss[1..], n);
      assert n * |ss| == n + n * |ss[1..]|;
    }
  }

  /** No listing the parser can produce needs the fourth packet that would make the printer refuse. */
  lemma NeverRefused(ts: packetsize, l: Listing)
    requires Bounded(l)
    ensures PacketsFor(ts, l) <= 3
  {
    hide EntryBytes, Entries;
    EntriesAppend(l.video + l.audio, l.data);
    EntriesAppend(l.video, l.audio);
    EntriesAtMost(l.video, 5);
    EntriesAtMost(l.audio, 39);
    EntriesAtMost(l.data, 5);
    assert Size(ts, l) <= 31 + 40 + 312 + 40;
    var e := Size(ts, l) - (ts - 17);
    if e > 0 {
      assert PacketCount(e, ts) == 1 + PacketCount(e - (ts - 8), ts);
      if e - (ts - 8) > 0 {
        assert PacketCount(e - (ts - 8), ts) == 1 + PacketCount(e - 2 * (ts - 8), ts);
      }
    }
  }

  /** The section of every printed table, its CRC included, passes the decoder of Annex A. */
  lemma PrintedChecks(ts: packetsize, h: Header, l: Listing)
    requires Fits(ts, l)
    ensures Checks(Printed(ts, h, l)[5..8 + SectionLength(l)])
  {
    hide CrcBytes, Checks, Entries, SectionFront, Descriptor, PacketHead, Fill;
    SectionChecks(Section(h, l));
    Middle(PacketHead(h.pmtPid), Section(h, l), CrcBytes(Section(h, l)), Fill(ts - Size(ts, l)));
  }
}
