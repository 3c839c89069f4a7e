/** The dtcpencrypt element: the methods that work on its fields, on newPMT and on the packets in place. */
module DtcpEncrypt {
  import opened Bytes
  import opened Psi
  import opened PmtPrint
  import opened PmtParse
  import opened PsiTracker
  import Crc
  import CrcDetects

  /** Table id, length, program and version. */
  function TableStart(length: nat, program: nat, version: nat): (r: seq<byte>)
    ensures |r| == 6
  {
    [0x02, 0xb0 + length / 256 % 16, Low8(length), High8(program), Low8(program), 0xc1 + 2 * (version % 32)]
  }

  /** Section numbers, clock PID and the length of the descriptor. */
  function TableRest(pcrPid: nat): (r: seq<byte>)
    ensures |r| == 6
  {
    [0x00, 0x00, 0xe0 + High5(pcrPid), Low8(pcrPid), 0xf0, 0x06]
  }

  lemma FrontParts(h: Header, length: nat)
    ensures TableStart(length, h.program, h.version) + TableRest(h.pcrPid) == SectionFront(h, length)
  {
    hide High5, High8, Low8;
  }

  class DtcpEnc {
    const tspacketsize: packetsize
    const newPMT: array<byte>
    var newPMTSize: int
    var cci: byte
    var emi: byte
    var havePAT: Flag
    var versionPAT: int
    var program: int
    var pmtPid: int
    var havePMT: Flag
    var haveNewPMT: Flag
    var versionPMT: int
    var pcrPid: int

    predicate Valid()
      reads this
    {
      newPMT.Length == CACHE
    }

    ghost function View(): (r: Tracker)
      requires Valid()
      reads this, newPMT
      ensures Sized(r)
    {
      Tracker(PatState(havePAT, versionPAT, program, pmtPid), PmtState(havePMT, haveNewPMT, versionPMT, pcrPid), newPMT[..])
    }

    /** gst_dtcp_enc_init, and the size the capabilities give. */
    constructor (ts: packetsize)
      ensures Valid() && fresh(newPMT) && tspacketsize == ts
      ensures Sized(View()) && View().pat == PatState(Off, versionPAT, -1, -1) && havePMT.Off? && haveNewPMT.Off?
    {
      tspacketsize := ts;
      newPMT := new byte[CACHE](_ => 0);
      cci, emi := 0, 0;
      havePAT, havePMT, haveNewPMT := Off, Off, Off;
      newPMTSize := 0;
      program, pmtPid, pcrPid := -1, -1, -1;
      versionPAT, versionPMT := 0, 0;
    }

    /** The header of a second packet. */
    method StartSecondPacket(pmt: nat)
      requires Valid() && pmt + 4 <= CACHE && pmtPid >= 0
      modifies newPMT
      ensures newPMT[..] == Overlaid(old(newPMT[..]), pmt, SecondHead(pmtPid))
    {
      newPMT[pmt] := SYNC;
      newPMT[pmt + 1] := 0x20;
      newPMT[pmt + 1] := pmtPid / 256 % 32;
      newPMT[pmt + 2] := pmtPid % 256;
      newPMT[pmt + 3] := 0x10;
    }

    /** putPmtByte: past the end of the packet it starts a second one and jumps. */
    method PutPmtByte(index: nat, b: byte) returns (index': nat)
      requires Valid() && index < CACHE && pmtPid >= 0
      modifies newPMT
      ensures index + 1 < tspacketsize ==>
        index' == index + 1 && newPMT[..] == Overlaid(old(newPMT[..]), index, [b])
      ensures index + 1 >= tspacketsize ==>
        && index' == index + 1 + tspacketsize + Stamp(tspacketsize) + 4
        && newPMT[..] == Overlaid(Overlaid(old(newPMT[..]), index, [b]), tspacketsize + Stamp(tspacketsize),
                                  SecondHead(pmtPid))
    {
      var ttsSize := 0;
      if tspacketsize == 192 {
        ttsSize := 4;
      }
      newPMT[index] := b;
      index' := index + 1;
      assert newPMT[..] == Overlaid(old(newPMT[..]), index, [b]);
      hide Overlaid, SecondHead;
      if index' > tspacketsize - 1 {
        StartSecondPacket(tspacketsize + ttsSize);
        index' := index' + tspacketsize + ttsSize + 4;
      }
    }

    /** The header of the packet. */
    method PutPacketHead(t: nat)
      requires Valid() && t == Stamp(tspacketsize) && pmtPid >= 0
      modifies newPMT
      ensures newPMT[..] == Overlaid(old(newPMT[..]), t, PacketHead(pmtPid))
    {
      newPMT[t] := SYNC;
      newPMT[t + 1] := 0x60 + pmtPid / 256 % 32;
      newPMT[t + 2] := pmtPid % 256;
      newPMT[t + 3] := 0x10;
      newPMT[t + 4] := 0x00;
    }

    ghost function CurrentHeader(): Header
      requires pmtPid >= 0 && program >= 0 && versionPMT >= 0 && pcrPid >= 0
      reads this
    {
      Header(pmtPid, program, versionPMT, pcrPid, cci)
    }

    method PutTableStart(t: nat, length: nat)
      requires Valid() && t == Stamp(tspacketsize) && program >= 0 && versionPMT >= 0
      modifies newPMT
      ensures newPMT[..] == Overlaid(old(newPMT[..]), t + 5, TableStart(length, program, versionPMT))
    {
      hide High8, Low8;
      newPMT[t + 5] := 0x02;
      newPMT[t + 6] := 0xb0 + length / 256 % 16;
      newPMT[t + 7] := Low8(length);
      newPMT[t + 8] := High8(program);
      newPMT[t + 9] := Low8(program);
      DoubledVersion(versionPMT);
      newPMT[t + 10] := 0xc1 + 2 * versionPMT % 64;
    }

    method PutTableRest(t: nat)
      requires Valid() && t == Stamp(tspacketsize) && pcrPid >= 0
      modifies newPMT
      ensures newPMT[..] == Overlaid(old(newPMT[..]), t + 11, TableRest(pcrPid))
    {
      hide High5, Low8;
      newPMT[t + 11] := 0x00;
      newPMT[t + 12] := 0x00;
      newPMT[t + 13] := 0xe0 + High5(pcrPid);
      newPMT[t + 14] := Low8(pcrPid);
      newPMT[t + 15] := 0xf0;
      newPMT[t + 16] := 0x06;
    }

    method PutSectionFront(t: nat, length: nat)
      requires Valid() && t == Stamp(tspacketsize) && pmtPid >= 0 && program >= 0 && versionPMT >= 0 && pcrPid >= 0
      modifies newPMT
      ensures newPMT[..] == Overlaid(old(newPMT[..]), t + 5, SectionFront(CurrentHeader(), length))
    {
      hide Overlaid, TableStart, TableRest, SectionFront;
      ghost var a := newPMT[..];
      PutTableStart(t, length);
      PutTableRest(t);
      OverlaidTwice(a, t + 5, TableStart(length, program, versionPMT), TableRest(pcrPid));
      FrontParts(CurrentHeader(), length);
    }

    method PutDescriptor(t: nat)
      requires Valid() && t == Stamp(tspacketsize)
      modifies newPMT, `emi
      ensures newPMT[..] == Overlaid(old(newPMT[..]), t + 17, Descriptor(cci))
      ensures emi == if Epn(cci) then 0x0a else old(emi)
    {
      var aps := cci / 32 % 2;
      var epn := cci % 4 == 0 && aps == 1;
      var ict := cci / 16 % 2;
      if epn {
        emi := 0x0a;
      }
      newPMT[t + 17] := 0x88;
      newPMT[t + 18] := 0x04;
      newPMT[t + 19] := 0x0f;
      newPMT[t + 20] := 0xff;
      var control: byte := 0xc0;
      if epn {
        control := control + 4;
      }
      newPMT[t + 21] := control + cci % 4;
      var token: byte := 0xf8;
      if ict == 1 {
        token := token + 4;
      }
      newPMT[t + 22] := token + cci / 4 % 4;
    }

    /** One turn of the loops over the streams. */
    method PutEntry(pi: nat, s: Stream) returns (pi': nat)
      requires Valid() && pmtPid >= 0 && pi + |EntryBytes(s)| < tspacketsize
      modifies newPMT
      ensures pi' == pi + |EntryBytes(s)| && newPMT[..] == Overlaid(old(newPMT[..]), pi, EntryBytes(s))
    {
      hide Overlaid, High5, Low8;
      ghost var a, e := newPMT[..], EntryBytes(s);
      var nameLen := |s.name|;
      pi' := PutPmtByte(pi, s.kind);
      pi' := PutPmtByte(pi', 0xe0 + High5(s.pid));
      OverlaidTwice(a, pi, [s.kind], [e[1]]);
      pi' := PutPmtByte(pi', Low8(s.pid));
      OverlaidTwice(a, pi, [s.kind] + [e[1]], [e[2]]);
      pi' := PutPmtByte(pi', 0xf0);
      OverlaidTwice(a, pi, [s.kind] + [e[1]] + [e[2]], [0xf0]);
      ghost var front: seq<byte> := [s.kind, e[1], e[2], 0xf0];
      assert [s.kind] + [e[1]] + [e[2]] + [0xf0] == front;
      if nameLen != 0 {
        pi' := PutPmtByte(pi', Low8(3 + nameLen));
        OverlaidTwice(a, pi, front, [e[4]]);
        pi' := PutPmtByte(pi', 0x0a);
        OverlaidTwice(a, pi, front + [e[4]], [0x0a]);
        pi' := PutPmtByte(pi', Low8(1 + nameLen));
        OverlaidTwice(a, pi, front + [e[4]] + [0x0a], [e[6]]);
        front := front + [e[4]] + [0x0a] + [e[6]];
        assert front == e[..7];
        var j := 0;
        assert front + s.name[..0] == front;
        while j < nameLen
          invariant 0 <= j <= nameLen && pi' == pi + 7 + j
          invariant newPMT[..] == Overlaid(a, pi, front + s.name[..j])
        {
          pi' := PutPmtByte(pi', s.name[j]);
          OverlaidTwice(a, pi, front + s.name[..j], [s.name[j]]);
          assert front + s.name[..j] + [s.name[j]] == front + s.name[..j + 1];
          j := j + 1;
        }
        front := front + s.name;
        assert s.name[..nameLen] == s.name;
      }
      pi' := PutPmtByte(pi', 0x00);
      OverlaidTwice(a, pi, front, [0x00]);
      assert front + [0x00] == e;
    }

    /** The three loops run alike over video, audio and data. */
    method PutEntries(pi: nat, ss: seq<Stream>) returns (pi': nat)
      requires Valid() && pmtPid >= 0 && pi + |Entries(ss)| < tspacketsize
      modifies newPMT
      ensures pi' == pi + |Entries(ss)| && newPMT[..] == Overlaid(old(newPMT[..]), pi, Entries(ss))
    {
      hide Overlaid, EntryBytes, Entries;
      pi' := pi;
      ghost var a := newPMT[..];
      NothingOverlaid(a, pi);
      assert ss[..0] == [];
      var i := 0;
      while i < |ss|
        invariant 0 <= i <= |ss| && pi' == pi + |Entries(ss[..i])| && |Entries(ss[..i])| <= |Entries(ss)|
        invariant newPMT[..] == Overlaid(a, pi, Entries(ss[..i]))
      {
        assert ss[..i] + [ss[i]] == ss[..i + 1] && ss[..i + 1] + ss[i + 1..] == ss;
        EntriesSnoc(ss[..i], ss[i]);
        EntriesAppend(ss[..i + 1], ss[i + 1..]);
        pi' := PutEntry(pi', ss[i]);
        OverlaidTwice(a, pi, Entries(ss[..i]), EntryBytes(ss[i]));
        i := i + 1;
      }
      assert ss[..|ss|] == ss;
    }

    lemma NothingOverlaid(a: seq<byte>, at: nat)
      requires at <= |a|
      ensures Entries([]) == [] && Overlaid(a, at, Entries([])) == a
    {
    }

    /** The size computation in front of the printing. */
    method ComputeSize(l: Listing) returns (pmtSize: int, pmtPacketCount: int)
      ensures pmtSize == Size(tspacketsize, l) && pmtPacketCount == PacketsFor(tspacketsize, l)
    {
      hide Entries, EntryBytes;
      pmtSize := Stamp(tspacketsize) + 17 + 6;
      var video := SizeOf(l.video);
      var audio := SizeOf(l.audio);
      var data := SizeOf(l.data);
      EntriesAppend(l.video + l.audio, l.data);
      EntriesAppend(l.video, l.audio);
      pmtSize := pmtSize + video + audio + data + 4;
      pmtPacketCount := 1;
      var i := pmtSize - (tspacketsize - 17);
      while i > 0
        invariant pmtPacketCount + PacketCount(i, tspacketsize) == 1 + PacketsFor(tspacketsize, l)
      {
        pmtPacketCount := pmtPacketCount + 1;
        i := i - (tspacketsize - 8);
      }
    }

    method SizeOf(ss: seq<Stream>) returns (n: nat)
      ensures n == |Entries(ss)|
    {
      hide Entries;
      n := 0;
      var i := 0;
      assert ss[..0] == [] && |Entries([])| == 0 by { NothingOverlaid([], 0); }
      while i < |ss|
        invariant 0 <= i <= |ss| && n == |Entries(ss[..i])|
      {
        assert ss[..i] + [ss[i]] == ss[..i + 1];
        EntriesSnoc(ss[..i], ss[i]);
        n := n + 5;
        if |ss[i].name| != 0 {
          n := n + 3 + |ss[i].name|;
        }
        i := i + 1;
      }
      assert ss[..|ss|] == ss;
    }

    /** The loop that feeds the CRC chunk by chunk. */
    method SectionCrc(table: seq<Crc.word>, t: nat, total: nat) returns (crc: Crc.word)
      requires Valid() && Crc.IsTable(table) && t == Stamp(tspacketsize) && t + 5 + total <= CACHE
      ensures crc == CrcOf(newPMT[t + 5..t + 5 + total])
    {
      hide Crc.Register, Octets;
      var crcData, crcLenTotal := t + 5, total;
      var crcLen := if crcLenTotal > tspacketsize - t - 5 then tspacketsize - t - 5 else crcLenTotal;
      crc := Crc.PRESET;
      NothingFed(newPMT[t + 5..crcData]);
      while crcLenTotal != 0
        invariant 0 <= crcLen <= crcLenTotal && (crcLenTotal != 0 ==> crcLen != 0)
        invariant t + 5 <= crcData && crcData + crcLenTotal == t + 5 + total
        invariant crc == CrcOf(newPMT[t + 5..crcData])
        decreases crcLenTotal
      {
        ghost var fed := newPMT[t + 5..crcData];
        ghost var chunk := newPMT[crcData..crcData + crcLen];
        assert fed + chunk == newPMT[t + 5..crcData + crcLen];
        OctetsAppend(fed, chunk);
        Crc.RegisterAppend(Crc.PRESET, Octets(fed), Octets(chunk));
        crc := CalcCrc32(table, newPMT, crcData, crcLen, crc);
        crcData := crcData + crcLen;
        crcLen := crcLenTotal - crcLen;
        crcLenTotal := crcLen;
      }
    }

    lemma NothingFed(s: seq<byte>)
      requires s == []
      ensures CrcOf(s) == Crc.PRESET
    {
    }

    /** The four bytes of the CRC; the last of them may be the last of the packet, and then starts a second one. */
    method PutCrcBytes(pi: nat, crc: Crc.word) returns (pi': nat)
      requires Valid() && pmtPid >= 0 && pi + 4 <= tspacketsize
      modifies newPMT
      ensures pi' == FillFrom(tspacketsize, pi + 4)
      ensures var put := Overlaid(old(newPMT[..]), pi, Values(CrcDetects.BigEndian(crc)));
        newPMT[..] == if pi + 4 < tspacketsize then put
                      else Overlaid(put, tspacketsize + Stamp(tspacketsize), SecondHead(pmtPid))
    {
      hide Overlaid, Value, Values, SecondHead;
      ghost var a := newPMT[..];
      var b0, b1 := Value(CrcDetects.TopOctet(crc)), Value(CrcDetects.SecondOctet(crc));
      var b2, b3 := Value(CrcDetects.ThirdOctet(crc)), Value(CrcDetects.LowOctet(crc));
      pi' := PutPmtByte(pi, b0);
      pi' := PutPmtByte(pi', b1);
      OverlaidTwice(a, pi, [b0], [b1]);
      pi' := PutPmtByte(pi', b2);
      OverlaidTwice(a, pi, [b0] + [b1], [b2]);
      pi' := PutPmtByte(pi', b3);
      OverlaidTwice(a, pi, [b0] + [b1] + [b2], [b3]);
      FourValues(crc);
      assert [b0] + [b1] + [b2] + [b3] == [b0, b1, b2, b3];
    }

    lemma FourValues(crc: Crc.word)
      ensures Values(CrcDetects.BigEndian(crc)) ==
        [Value(CrcDetects.TopOctet(crc)), Value(CrcDetects.SecondOctet(crc)),
         Value(CrcDetects.ThirdOctet(crc)), Value(CrcDetects.LowOctet(crc))]
    {
      hide CrcDetects.TopOctet, CrcDetects.SecondOctet, CrcDetects.ThirdOctet, CrcDetects.LowOctet, Value;
    }

    /** The stuffing behind the section, to the end of newPMT. */
    method PutFill(pi: nat)
      requires Valid() && pi <= CACHE
      modifies newPMT
      ensures newPMT[..] == Overlaid(old(newPMT[..]), pi, Fill(CACHE - pi))
    {
      for i := pi to CACHE
        invariant newPMT[..pi] == old(newPMT[..pi])
        invariant forall k :: pi <= k < i ==> newPMT[k] == FILL
      {
        newPMT[i] := 0xff;
      }
    }

    method PutFront(t: nat, length: nat)
      requires Valid() && t == Stamp(tspacketsize) && pmtPid >= 0 && program >= 0 && versionPMT >= 0 && pcrPid >= 0
      modifies newPMT, `emi
      ensures newPMT[..] ==
        Overlaid(old(newPMT[..]), t, PacketHead(pmtPid) + SectionFront(CurrentHeader(), length) + Descriptor(cci))
      ensures emi == if Epn(cci) then 0x0a else old(emi)
    {
      hide Overlaid, PacketHead, SectionFront, Descriptor, Epn;
      ghost var a := newPMT[..];
      PutPacketHead(t);
      PutSectionFront(t, length);
      OverlaidTwice(a, t, PacketHead(pmtPid), SectionFront(CurrentHeader(), length));
      PutDescriptor(t);
      OverlaidTwice(a, t, PacketHead(pmtPid) + SectionFront(CurrentHeader(), length), Descriptor(cci));
    }

    method PutStreams(pi: nat, l: Listing) returns (pi': nat)
      requires Valid() && pmtPid >= 0 && pi + |Entries(All(l))| < tspacketsize
      modifies newPMT
      ensures pi' == pi + |Entries(All(l))| && newPMT[..] == Overlaid(old(newPMT[..]), pi, Entries(All(l)))
    {
      hide Overlaid, Entries;
      ghost var a := newPMT[..];
      EntriesAppend(l.video + l.audio, l.data);
      EntriesAppend(l.video, l.audio);
      pi' := PutEntries(pi, l.video);
      pi' := PutEntries(pi', l.audio);
      OverlaidTwice(a, pi, Entries(l.video), Entries(l.audio));
      pi' := PutEntries(pi', l.data);
      OverlaidTwice(a, pi, Entries(l.video) + Entries(l.audio), Entries(l.data));
    }

    /** gst_dtcp_enc_generate_pmt, for listings that fit one packet or need more than three. */
    method GeneratePmt(table: seq<Crc.word>, l: Listing) returns (result: bool)
      requires Valid() && Crc.IsTable(table)
      requires pmtPid >= 0 && program >= 0 && versionPMT >= 0 && pcrPid >= 0
      requires Fits(tspacketsize, l) || PacketsFor(tspacketsize, l) > 3
      modifies newPMT, `emi, `newPMTSize
      ensures result <==> PacketsFor(tspacketsize, l) <= 3
      ensures !result ==> newPMT[..] == old(newPMT[..]) && emi == old(emi)
      ensures result ==> Fits(tspacketsize, l) && newPMTSize == Size(tspacketsize, l)
      ensures result ==>
        newPMT[..] == Cached(tspacketsize, old(newPMT[..]), CurrentHeader(), l)
      ensures result ==> emi == if Epn(cci) then 0x0a else old(emi)
    {
      hide Overlaid, Entries, PacketHead, SectionFront, Descriptor, Fill, CrcOf, Values, CrcDetects.BigEndian, Epn;
      hide PacketsFor, SecondHead, Cached;
      var pmtSize, pmtPacketCount := ComputeSize(l);
      if pmtPacketCount > 3 {
        return false;
      }
      ghost var a := newPMT[..];
      var t := Stamp(tspacketsize);
      PutFront(t, pmtSize - t - 8);
      var pi := PutStreams(t + 23, l);
      ghost var part, section := PacketHead(pmtPid), Section(CurrentHeader(), l);
      ghost var front := part + SectionFront(CurrentHeader(), SectionLength(l)) + Descriptor(cci);
      OverlaidTwice(a, t, front, Entries(All(l)));
      assert front + Entries(All(l)) == part + section;
      SectionInPlace(a, t, part, section);
      var crc := SectionCrc(table, t, pmtSize - t - 9);
      pi := PutCrcBytes(pi, crc);
      OverlaidTwice(a, t, part + section, CrcBytes(section));
      PutFill(pi);
      Assembled(tspacketsize, a, CurrentHeader(), l);
      newPMTSize := pmtSize;
      result := true;
    }

    /** Stuffing that is there already. */
    static lemma FillAgain(a: seq<byte>, t: nat, whole: seq<byte>, n: nat, k: nat)
      requires t + |whole| + n <= |a| && k <= n
      ensures
        var filled := Overlaid(a, t + |whole|, Fill(n));
        Overlaid(filled, t, whole + Fill(k)) == Overlaid(filled, t, whole)
    {
    }

    /** The parts in the order they were stored are the cached packet. */
    static lemma Assembled(ts: packetsize, a: seq<byte>, h: Header, l: Listing)
      requires Fits(ts, l) && |a| == CACHE
      ensures
        var t, size := Stamp(ts), Size(ts, l);
        var from := FillFrom(ts, size);
        var whole := PacketHead(h.pmtPid) + Section(h, l) + CrcBytes(Section(h, l));
        var put := Overlaid(a, t, whole);
        Overlaid(if size < ts then put else Overlaid(put, ts + t, SecondHead(h.pmtPid)), from, Fill(CACHE - from))
          == Cached(ts, a, h, l)
    {
      hide Overlaid, Fill, PacketHead, Section, CrcBytes, SecondHead;
      var t, size := Stamp(ts), Size(ts, l);
      var from := FillFrom(ts, size);
      var whole := PacketHead(h.pmtPid) + Section(h, l) + CrcBytes(Section(h, l));
      if size < ts {
        OverlaidSwap(a, t, whole, size, Fill(CACHE - size));
        FillAgain(a, t, whole, CACHE - size, ts - size);
      } else {
        var second := SecondHead(h.pmtPid);
        OverlaidSwap(a, t, whole, ts + t, second);
        OverlaidSwap(Overlaid(a, ts + t, second), t, whole, from, Fill(CACHE - from));
        assert whole + Fill(0) == whole;
      }
    }

    lemma SectionInPlace(a: seq<byte>, t: nat, part: seq<byte>, section: seq<byte>)
      requires |part| == 5 && t + 5 + |section| <= |a|
      ensures Overlaid(a, t, part + section)[t + 5..t + 5 + |section|] == section
    {
    }

    // ------------------------------------------------------------- parsing

    /** The descriptors of one audio stream; the bound of the loop is max. */
    method ReadName(packet: array<byte>, base: nat, first: nat, max: nat) returns (ok: bool, name: seq<byte>)
      requires base <= packet.Length && Walk(packet[base..], first, max, []) != NameUndefined
      ensures !ok ==> Walk(packet[base..], first, max, []) == NameRejected
      ensures ok ==> Walk(packet[base..], first, max, []) == Name(name)
    {
      ghost var d := packet[base..];
      ghost var whole := Walk(d, first, max, []);
      var descIdx := first;
      name := [];
      while descIdx < max
        invariant Walk(d, descIdx, max, name) == whole
        decreases max - descIdx
      {
        assert d[descIdx] == packet[base + descIdx] && d[descIdx + 1] == packet[base + descIdx + 1];
        var descrTag := packet[base + descIdx];
        var descrLen := packet[base + descIdx + 1];
        if descrTag == 0x0a {
          if descrLen > 32 {
            return false, name;
          }
          assert d[descIdx + 2..descIdx + 2 + descrLen] == packet[base + descIdx + 2..base + descIdx + 2 + descrLen];
          name := UpToNul(packet[base + descIdx + 2..base + descIdx + 2 + descrLen]);
        }
        descIdx := descIdx + 2 + descrLen;
      }
      ok := true;
    }

    /** The loop over the streams of a table; base is where the packet starts in the buffer. */
    method ReadStreams(packet: array<byte>, base: nat, first: nat, end: int) returns (ok: bool, l: Listing)
      requires base <= packet.Length && ParseStreams(packet[base..], first, end, Empty()) != Undefined
      ensures !ok ==> ParseStreams(packet[base..], first, end, Empty()) == Rejected
      ensures ok ==> ParseStreams(packet[base..], first, end, Empty()) == Parsed(l)
    {
      hide ClassOf, Walk;
      ghost var d := packet[base..];
      ghost var whole := ParseStreams(d, first, end, Empty());
      var p := first;
      l := Empty();
      while p < end
        invariant ParseStreams(d, p, end, l) == whole
        decreases end - p
      {
        assert d[p] == packet[base + p] && d[p + 1] == packet[base + p + 1] && d[p + 2] == packet[base + p + 2];
        assert d[p + 3] == packet[base + p + 3] && d[p + 4] == packet[base + p + 4];
        var streamType := packet[base + p];
        var pid := Pid(packet[base + p + 1], packet[base + p + 2]);
        var len := Length12(packet[base + p + 3], packet[base + p + 4]);
        var name := [];
        if ClassOf(streamType).Audio? {
          if len > 2 {
            ok, name := ReadName(packet, base, p + 5, p + 5 + len);
            if !ok {
              return;
            }
          }
        }
        l := Add(l, Stream(streamType, pid, name));
        p := p + 5 + len;
      }
      ok := true;
    }

    // ----------------------------------------------------- buffers of packets

    /** The branch for PID 0. */
    method ExaminePat(packet: array<byte>, base: nat)
      requires Valid() && packet != newPMT && base + tspacketsize <= packet.Length
      modifies this
      ensures View() == OnPat(old(View()), packet[base..], Stamp(tspacketsize))
      ensures cci == old(cci) && emi == old(emi)
    {
      hide PayloadStart, AdaptationControl, Version, Length12, Program16, Pid;
      var t := Stamp(tspacketsize);
      FrontOf(packet[..], base, t);
      assert packet[..][base..] == packet[base..];
      var b := base + t;
      if PayloadStart(packet[b + 1]) && AdaptationControl(packet[b + 3]) == 1 && packet[b + 5] == 0x00 {
        var version := Version(packet[b + 10]);
        var current := packet[b + 10] % 2;
        if havePAT.Off? || (current == 1 && version != versionPAT) {
          var length := Length12(packet[b + 6], packet[b + 7]);
          if length == 13 {
            havePAT := On;
            versionPAT := version;
            program := Program16(packet[b + 13], packet[b + 14]);
            pmtPid := Pid(packet[b + 15], packet[b + 16]);
            if program != 0 && pmtPid != 0 {
              havePMT := Off;
              haveNewPMT := Off;
            } else {
              program := -1;
              pmtPid := -1;
            }
          }
        }
      }
    }

    lemma FrontOf(a: seq<byte>, base: nat, t: nat)
      requires base + t + 17 <= |a|
      ensures var d, b := a[base..], base + t;
        && d[t + 1] == a[b + 1] && d[t + 2] == a[b + 2] && d[t + 3] == a[b + 3] && d[t + 5] == a[b + 5] && d[t + 6] == a[b + 6]
        && d[t + 7] == a[b + 7] && d[t + 8] == a[b + 8] && d[t + 9] == a[b + 9] && d[t + 10] == a[b + 10] && d[t + 13] == a[b + 13]
        && d[t + 14] == a[b + 14] && d[t + 15] == a[b + 15] && d[t + 16] == a[b + 16]
    {
    }

    /** Parsing the table and printing it anew. */
    method TakeTable(table: seq<Crc.word>, packet: array<byte>, base: nat) returns (ok: bool)
      requires Valid() && packet != newPMT && Crc.IsTable(table) && base + tspacketsize <= packet.Length
      requires program >= 0 && pmtPid >= 0
      requires Reprint(View(), packet[base..], tspacketsize, cci) != TakeUndefined
      modifies this, newPMT
      ensures !ok ==> Reprint(old(View()), packet[base..], tspacketsize, old(cci)) == TakeFails(View())
      ensures ok ==> Reprint(old(View()), packet[base..], tspacketsize, old(cci)) == Taken(View())
      ensures cci == old(cci)
    {
      hide ParseStreams, Fits, Cached, Bounded, PacketsFor, Size, Epn, Length12, Pid, Version;
      var t := Stamp(tspacketsize);
      var b := base + t;
      ghost var d := packet[base..];
      FrontOf(packet[..], base, t);
      assert packet[..][base..] == d;
      var version := Version(packet[b + 10]);
      var pcr := Pid(packet[b + 13], packet[b + 14]);
      var infoLength := Length12(packet[b + 15], packet[b + 16]);
      var sectionLength := Length12(packet[b + 6], packet[b + 7]);
      var l;
      ok, l := ReadStreams(packet, base, infoLength + 17 + t, t + 8 + sectionLength - 4);
      if !ok {
        return;
      }
      ListingFitsModel(d, t, l);
      NeverRefused(tspacketsize, l);
      pcrPid := pcr;
      versionPMT := version;
      var result := GeneratePmt(table, l);
      if result {
        haveNewPMT := On;
      }
      havePMT := On;
    }

    lemma ListingFitsModel(d: seq<byte>, t: nat, l: Listing)
      requires t + 17 <= |d| && ParseListing(d, t) == Parsed(l)
      ensures Bounded(l)
    {
      hide SoundListing, ParseStreams, Bounded;
      EmptyIsSound();
      ParsedIsSound(d, Length12(d[t + 15], d[t + 16]) + 17 + t, t + 8 + LengthField(d, t) - 4, Empty());
      SoundIsBounded(l);
    }

    /** The branch for the start of a table on the table's PID, up to the rewriting. */
    method ExaminePmt(table: seq<Crc.word>, packet: array<byte>, base: nat) returns (ok: bool)
      requires Valid() && packet != newPMT && Crc.IsTable(table) && base + tspacketsize <= packet.Length && pmtPid >= 0
      requires OnPmt(View(), packet[base..], tspacketsize, cci) != TakeUndefined
      modifies this, newPMT
      ensures !ok ==> OnPmt(old(View()), packet[base..], tspacketsize, old(cci)) == TakeFails(View())
      ensures ok ==> OnPmt(old(View()), packet[base..], tspacketsize, old(cci)) == Taken(View())
      ensures cci == old(cci)
    {
      hide Reprint, Length12, Pid, Version, AdaptationControl, Program16;
      var t := Stamp(tspacketsize);
      var b := base + t;
      FrontOf(packet[..], base, t);
      assert packet[..][base..] == packet[base..];
      ok := true;
      if AdaptationControl(packet[b + 3]) == 1 && packet[b + 5] == 0x02 && Program16(packet[b + 8], packet[b + 9]) == program {
        var version := Version(packet[b + 10]);
        var current := packet[b + 10] % 2;
        if havePMT.Off? || (current == 1 && version != versionPMT) {
          if havePMT.On? && version != versionPMT {
            havePMT := Off;
            haveNewPMT := Off;
          }
          if havePMT.Off? {
            var sectionLength := Length12(packet[b + 6], packet[b + 7]);
            if sectionLength < tspacketsize - 5 - 12 - 4 - t {
              ok := TakeTable(table, packet, base);
            }
          }
        }
      }
    }

    /** The cached table goes over the packet, with the packet's stamp and continuity byte. */
    method Rewrite(packet: array<byte>, base: nat)
      requires Valid() && packet != newPMT && base + tspacketsize <= packet.Length
      modifies newPMT, packet
      ensures newPMT[..] == Restamped(old(newPMT[..]), old(packet[base..]), Stamp(tspacketsize))
      ensures packet[..] == old(packet[..base]) + newPMT[..tspacketsize] + old(packet[base + tspacketsize..])
    {
      var t := Stamp(tspacketsize);
      if t != 0 {
        newPMT[0] := packet[base];
        newPMT[1] := packet[base + 1];
        newPMT[2] := packet[base + 2];
        newPMT[3] := packet[base + 3];
      }
      newPMT[3 + t] := packet[base + 3 + t];
      Restamping(old(newPMT[..]), old(packet[base..]), newPMT[..], t);
      CopyTable(packet, base);
    }

    lemma Restamping(a: seq<byte>, d: seq<byte>, b: seq<byte>, t: nat)
      requires |a| == |b| == CACHE && t + 4 <= |d| && (t == 0 || t == 4)
      requires t == 4 ==> b[0] == d[0] && b[1] == d[1] && b[2] == d[2] && b[3] == d[3]
      requires b[3 + t] == d[3 + t] && (forall k :: t <= k < CACHE && k != 3 + t ==> b[k] == a[k])
      ensures b == Restamped(a, d, t)
    {
    }

    /** memcpy_s of one packet. */
    method CopyTable(packet: array<byte>, base: nat)
      requires Valid() && packet != newPMT && base + tspacketsize <= packet.Length
      modifies packet
      ensures packet[..] == old(packet[..base]) + newPMT[..tspacketsize] + old(packet[base + tspacketsize..])
    {
      for i := 0 to tspacketsize
        invariant packet[..base] == old(packet[..base])
        invariant packet[base..base + i] == newPMT[..i]
        invariant packet[base + tspacketsize..] == old(packet[base + tspacketsize..])
      {
        packet[base + i] := newPMT[i];
      }
    }

    /** One turn of the packet loop: ok is false where the function returns at once. */
    method ExaminePacket(table: seq<Crc.word>, packet: array<byte>, base: nat) returns (ok: bool)
      requires Valid() && packet != newPMT && Crc.IsTable(table) && base + tspacketsize <= packet.Length
      requires Examine(View(), packet[base..], tspacketsize, cci) != OutOfModel
      modifies this, newPMT, packet
      ensures !ok ==> Examine(old(View()), old(packet[base..]), tspacketsize, cci) == GivesUp(View())
      ensures !ok ==> packet[..] == old(packet[..])
      ensures ok ==> packet[..base] == old(packet[..base])
      ensures ok ==> packet[base + tspacketsize..] == old(packet[base + tspacketsize..])
      ensures ok ==> Examine(old(View()), old(packet[base..]), tspacketsize, cci) == Sent(View(), packet[base..base + tspacketsize])
      ensures cci == old(cci)
    {
      hide OnPat, OnPmt, Restamped, Pid, PayloadStart;
      var t := Stamp(tspacketsize);
      ghost var d := packet[base..];
      FrontOf(packet[..], base, t);
      assert packet[..][base..] == d && d[..tspacketsize] == packet[base..base + tspacketsize];
      var pid := Pid(packet[base + t + 1], packet[base + t + 2]);
      ok := true;
      if pid == 0 {
        ExaminePat(packet, base);
      } else if pid == pmtPid {
        if PayloadStart(packet[base + t + 1]) {
          ok := ExaminePmt(table, packet, base);
          if !ok {
            return;
          }
          if haveNewPMT.On? {
            Rewrite(packet, base);
          }
        }
      }
    }

    /** What a buffer of packets makes of the rest of it. */
    static ghost function After(sent: seq<byte>, rest: Examined): Examined {
      match rest
      case Done(tr, out, ok) => Done(tr, sent + out, ok)
      case BufferOutOfModel => BufferOutOfModel
    }

    static lemma AfterTwice(a: seq<byte>, b: seq<byte>, rest: Examined)
      ensures After(a, After(b, rest)) == After(a + b, rest)
    {
      match rest
      case Done(_, out, _) => assert a + (b + out) == a + b + out;
      case _ =>
    }

    /** gst_dtcp_enc_examine_buffer. */
    method ExamineInPlace(table: seq<Crc.word>, buf: array<byte>) returns (result: bool)
      requires Valid() && buf != newPMT && Crc.IsTable(table) && Stamp(tspacketsize) < buf.Length
      requires ExamineBuffer(View(), buf[..], tspacketsize, cci) != BufferOutOfModel
      modifies this, newPMT, buf
      ensures ExamineBuffer(old(View()), old(buf[..]), tspacketsize, old(cci)) == Done(View(), buf[..], result)
    {
      hide Examine, ExamineAll, After, Sized, Whole;
      var t := Stamp(tspacketsize);
      ghost var d, tr, cci0 := buf[..], View(), cci;
      if buf[t] != SYNC || !Whole(buf.Length, tspacketsize) {
        return false;
      }
      ghost var whole := ExamineAll(tr, d, tspacketsize, cci0);
      var packet := 0;
      AfterNothing(whole);
      assert d[0..] == d;
      assert buf[..0] == [];
      while packet < buf.Length
        invariant 0 <= packet <= buf.Length && Whole(buf.Length - packet, tspacketsize) && cci == cci0 && Valid()
        invariant buf[packet..] == d[packet..]
        invariant whole == After(buf[..packet], ExamineAll(View(), d[packet..], tspacketsize, cci0))
        decreases buf.Length - packet
      {
        ghost var sent, rest, before := buf[..packet], d[packet..], View();
        RestOfLoop(before, rest, tspacketsize, cci0);
        AfterNone(sent);
        var ok := ExaminePacket(table, buf, packet);
        if !ok {
          assert buf[..] == sent + rest;
          AfterFailure(sent, rest, View());
          return false;
        }
        ghost var p := buf[packet..packet + tspacketsize];
        Shorter(d, packet, tspacketsize);
        assert buf[..packet + tspacketsize] == sent + p;
        assert buf[packet + tspacketsize..] == rest[tspacketsize..];
        AfterTwice(sent, p, ExamineAll(View(), d[packet + tspacketsize..], tspacketsize, cci0));
        packet := packet + tspacketsize;
      }
      assert d[packet..] == [] && buf[..packet] == buf[..];
      result := true;
      EmptyRest(View(), tspacketsize, cci0);
      AfterAll(buf[..], View());
    }

    static lemma Shorter(d: seq<byte>, packet: nat, ts: packetsize)
      requires packet + ts <= |d|
      ensures d[packet..][ts..] == d[packet + ts..]
    {
    }

    static lemma AfterNothing(rest: Examined)
      ensures After([], rest) == rest
    {
      match rest
      case Done(_, out, _) => assert [] + out == out;
      case _ =>
    }

    static lemma AfterNone(sent: seq<byte>)
      ensures After(sent, BufferOutOfModel) == BufferOutOfModel
    {
    }

    static lemma AfterAll(sent: seq<byte>, tr: Tracker)
      ensures After(sent, Done(tr, [], true)) == Done(tr, sent, true)
    {
    }

    static lemma AfterFailure(sent: seq<byte>, rest: seq<byte>, tr: Tracker)
      ensures After(sent, Done(tr, rest, false)) == Done(tr, sent + rest, false)
    {
    }

    static lemma EmptyRest(tr: Tracker, ts: packetsize, cci: byte)
      requires Sized(tr)
      ensures Whole(0, ts) && ExamineAll(tr, [], ts, cci) == Done(tr, [], true)
    {
    }

    /** Unrolling the loop over the packets once. */
    static lemma RestOfLoop(tr: Tracker, d: seq<byte>, ts: packetsize, cci: byte)
      requires Sized(tr) && d != [] && Whole(|d|, ts)
      ensures ts <= |d| && Whole(|d| - ts, ts)
      ensures Examine(tr, d, ts, cci).OutOfModel? ==> ExamineAll(tr, d, ts, cci) == BufferOutOfModel
      ensures Examine(tr, d, ts, cci).GivesUp? ==> ExamineAll(tr, d, ts, cci) == Done(Examine(tr, d, ts, cci).tracker, d, false)
      ensures Examine(tr, d, ts, cci).Sent? ==>
        var tr1, packet := Examine(tr, d, ts, cci).tracker, Examine(tr, d, ts, cci).packet;
        Sized(tr1) && ExamineAll(tr, d, ts, cci) == After(packet, ExamineAll(tr1, d[ts..], ts, cci))
    {
      hide Examine;
      WholeLess(|d|, ts);
      ExamineKeepsSize(tr, d, ts, cci);
    }
  }
}
