/** What the tracker promises over whole runs, and what rewriting does to a table. */
module PsiTheorems {
  import opened Bytes
  import opened Psi
  import opened PmtPrint
  import opened PmtParse
  import opened PsiTracker
  import DtvPat

  // ---------------------------------------------------------------- all runs

  /** One call: a buffer, and the copy control byte in force. */
  datatype Call = Call(data: seq<byte>, cci: byte)

  /** The fields after a run of calls, as long as every call is within the model. */
  function Run(tr: Tracker, calls: seq<Call>, ts: packetsize): Option<Tracker>
    requires Sized(tr) && forall i :: 0 <= i < |calls| ==> Stamp(ts) < |calls[i].data|
    decreases |calls|
  {
    if calls == [] then Some(tr)
    else
      match ExamineBuffer(tr, calls[0].data, ts, calls[0].cci)
      case BufferOutOfModel => None
      case Done(tr1, _, _) =>
        BufferKeepsSize(tr, calls[0].data, ts, calls[0].cci);
        Run(tr1, calls[1..], ts)
  }

  lemma {:induction false} BufferKeepsSize(tr: Tracker, d: seq<byte>, ts: packetsize, cci: byte)
    requires Sized(tr) && Stamp(ts) < |d|
    ensures ExamineBuffer(tr, d, ts, cci).Done? ==> Sized(ExamineBuffer(tr, d, ts, cci).tracker)
  {
    hide ExamineAll;
    if Aligned(d, ts) {
      LoopKeepsSize(tr, d, ts, cci);
    }
  }

  lemma {:induction false} LoopKeepsSize(tr: Tracker, d: seq<byte>, ts: packetsize, cci: byte)
    requires Sized(tr) && Whole(|d|, ts)
    ensures ExamineAll(tr, d, ts, cci).Done? ==> Sized(ExamineAll(tr, d, ts, cci).tracker)
    decreases |d|
  {
    hide Examine, Whole;
    if d != [] {
      WholeLess(|d|, ts);
      ExamineKeepsSize(tr, d, ts, cci);
      match Examine(tr, d, ts, cci)
      case Sent(tr1, _) => LoopKeepsSize(tr1, d[ts..], ts, cci);
      case _ =>
    }
  }

  /** A new element: nothing seen, no program. The version fields and newPMT hold anything. */
  predicate Fresh(tr: Tracker) {
    Sized(tr) && tr.pat.have.Off? && tr.pat.program == -1 && tr.pat.pmtPid == -1 && tr.pmt.have.Off? && tr.pmt.haveNew.Off?
  }

  lemma {:induction false} RunKeeps(tr: Tracker, calls: seq<Call>, ts: packetsize)
    requires Consistent(tr, ts) && forall i :: 0 <= i < |calls| ==> Stamp(ts) < |calls[i].data|
    ensures Run(tr, calls, ts).Some? ==> Consistent(Run(tr, calls, ts).value, ts)
    decreases |calls|
  {
    hide Consistent, ExamineAll;
    SizedWhenConsistent(tr, ts);
    if calls != [] {
      var d, cci := calls[0].data, calls[0].cci;
      if Aligned(d, ts) && ExamineAll(tr, d, ts, cci).Done? {
        BufferKeeps(tr, d, ts, cci);
      }
      match ExamineBuffer(tr, d, ts, cci)
      case Done(tr1, _, _) => RunKeeps(tr1, calls[1..], ts);
      case _ =>
    }
  }

  /** After any run of buffers, haveNewPMT implies havePMT implies havePAT, and a new table is the tracked program's. */
  lemma EveryRun(tr: Tracker, calls: seq<Call>, ts: packetsize)
    requires Fresh(tr) && forall i :: 0 <= i < |calls| ==> Stamp(ts) < |calls[i].data|
    ensures Run(tr, calls, ts).Some? ==>
      var end := Run(tr, calls, ts).value;
      Acquired(end) && Sized(end) && Known(end.pat) &&
      (end.pmt.haveNew.On? && end.pat.pmtPid != -1 ==> CacheMatches(end, ts))
  {
    hide CacheMatches, Run;
    RunKeeps(tr, calls, ts);
  }

  // ---------------------------------------------------------- one packet sent

  lemma HeadStart(pmtPid: nat)
    ensures PacketHead(pmtPid)[..3] == [SYNC, 0x60 + High5(pmtPid), Low8(pmtPid)]
  {
    hide High5, Low8;
  }

  /** The pieces of a cached packet that has got another one's stamp and continuity byte. */
  lemma RestampedParts(cache: seq<byte>, d: seq<byte>, t: nat, n: nat)
    requires t + 4 <= n <= |cache| && t + 4 <= |d|
    ensures var held := Restamped(cache, d, t);
      && held[..n][..t] == d[..t] && held[t..t + 3] == cache[t..t + 3] && held[t + 3] == d[t + 3]
      && held[..n][t + 4..] == cache[t + 4..n]
  {
    var held, front := Restamped(cache, d, t), d[..t] + cache[t..t + 3] + [d[t + 3]];
    assert held == front + cache[t + 4..] && |front| == t + 4;
    assert held[t..t + 3] == front[t..t + 3] == cache[t..t + 3];
    SlicedBefore(held, n, t + 4, n);
    SlicedSecond(front, cache[t + 4..], 0, n - t - 4);
    SlicedBehind(cache, t + 4, 0, n - t - 4);
    assert held[..n][t + 4..] == held[..n][t + 4..n];
  }

  lemma HeldBytes(cache: seq<byte>, ts: packetsize, h: Header, l: Listing, d: seq<byte>)
    requires |cache| == CACHE && Fits(ts, l) && CacheHolds(cache, ts, h, l) && ts <= |d|
    ensures var p, t := Restamped(cache, d, Stamp(ts))[..ts], Stamp(ts);
      p[..t] == d[..t] && p[t + 3] == d[t + 3] && p[t] == SYNC && p[t + 1] == 0x60 + High5(h.pmtPid) && p[t + 2] == Low8(h.pmtPid)
    ensures var p, t := Restamped(cache, d, Stamp(ts))[..ts], Stamp(ts); p[t + 4..] == Printed(ts, h, l)[4..]
  {
    hide Fits, Section, CrcBytes, Fill, High5, Low8;
    var t, printed := Stamp(ts), Printed(ts, h, l);
    var held := Restamped(cache, d, t);
    RestampedParts(cache, d, t, ts);
    assert printed[..3] == PacketHead(h.pmtPid)[..3];
    hide Restamped, Printed, PacketHead;
    HeadStart(h.pmtPid);
    assert held[t] == held[t..t + 3][0] && held[t + 1] == held[t..t + 3][1] && held[t + 2] == held[t..t + 3][2];
  }

  lemma PidSame(d: seq<byte>, t: nat, hi: byte, lo: byte)
    requires t + 3 <= |d| && PayloadStart(d[t + 1])
    requires hi == 0x60 + High5(PidOf(d, t)) && lo == Low8(PidOf(d, t))
    ensures Pid(hi, lo) == PidOf(d, t) && PayloadStart(hi)
  {
    PidReadBack(hi, PidOf(d, t));
  }

  /** The sent packet is either the packet received or a rewritten start of a table on the table's PID; in both
      cases the time stamp, the PID, the start flag and the byte with the continuity counter are those received. */
  lemma OnlyTablesChange(tr: Tracker, d: seq<byte>, ts: packetsize, cci: byte)
    requires Consistent(tr, ts) && ts <= |d| && Examine(tr, d, ts, cci).Sent?
    ensures var t, tr', p := Stamp(ts), Examine(tr, d, ts, cci).tracker, Examine(tr, d, ts, cci).packet;
      && |p| == ts && p[..t] == d[..t] && p[t + 3] == d[t + 3]
      && PidOf(p, t) == PidOf(d, t) && PayloadStart(p[t + 1]) == PayloadStart(d[t + 1])
      && (p != d[..ts] ==> PidOf(d, t) == tr.pat.pmtPid && PayloadStart(d[t + 1]) && tr'.pmt.haveNew.On?)
  {
    hide OnPat, OnPmt, Pid, PayloadStart, CacheHolds, Restamped, SoundListing, Fits, High5, Low8;
    ExamineKeepsSize(tr, d, ts, cci);
    var t := Stamp(ts);
    if PidOf(d, t) != 0 && PidOf(d, t) == tr.pat.pmtPid && PayloadStart(d[t + 1]) {
      PmtKeeps(tr, d, ts, cci);
      PmtKeepsPat(tr, d, ts, cci);
      var tr1 := OnPmt(tr, d, ts, cci).tracker;
      if tr1.pmt.haveNew.On? {
        var l: Listing, c: byte :| SoundListing(l) && Fits(ts, l) &&
          CacheHolds(tr1.cache, ts, Header(tr1.pat.pmtPid, tr1.pat.program, tr1.pmt.version, tr1.pmt.pcrPid, c), l);
        HeldBytes(tr1.cache, ts, Header(tr1.pat.pmtPid, tr1.pat.program, tr1.pmt.version, tr1.pmt.pcrPid, c), l, d);
        var p := Restamped(tr1.cache, d, t)[..ts];
        PidSame(d, t, p[t + 1], p[t + 2]);
      }
    }
  }

  lemma PmtKeepsPat(tr: Tracker, d: seq<byte>, ts: packetsize, cci: byte)
    requires ts <= |d| && Sized(tr) && tr.pat.pmtPid >= 0
    ensures OnPmt(tr, d, ts, cci).Taken? ==> OnPmt(tr, d, ts, cci).tracker.pat == tr.pat
  {
    hide TakesPmt, OnePacket, ParseListing, Cached, Fits;
  }

  lemma SameStretch(p: seq<byte>, q: seq<byte>, t: nat, n: nat, i: nat, j: nat)
    requires t + n <= |p| && n <= |q| && 4 <= i <= j <= n && p[t + 4..t + n] == q[4..n]
    ensures p[t + i..t + j] == q[i..j]
  {
    forall k | 0 <= k < j - i ensures p[t + i..t + j][k] == q[i..j][k] {
      assert p[t + i + k] == p[t + 4..t + n][i - 4 + k] == q[4..n][i - 4 + k];
    }
  }

  lemma PrintedSection(ts: packetsize, h: Header, l: Listing, p: seq<byte>)
    requires Fits(ts, l) && |p| == ts && p[Stamp(ts) + 4..] == Printed(ts, h, l)[4..]
    ensures PlacedAt(p, Stamp(ts) + 5, Section(h, l))
    ensures p[Stamp(ts) + 5..Stamp(ts) + 8 + SectionLength(l)] == Printed(ts, h, l)[5..8 + SectionLength(l)]
  {
    hide PacketHead, CrcBytes, Fill, Section, Entries;
    var t, printed, n := Stamp(ts), Printed(ts, h, l), |Section(h, l)|;
    assert p[t + 4..] == p[t + 4..t + 188] && printed[4..] == printed[4..188];
    Middle(PacketHead(h.pmtPid), Section(h, l), CrcBytes(Section(h, l)), Fill(ts - Size(ts, l)));
    SameStretch(p, printed, t, 188, 5, 8 + SectionLength(l));
    SameStretch(p, printed, t, 188, 5, 5 + n);
    assert printed[5..5 + n] == printed[5..9 + n][..n];
  }

  /** What the element's parser asks of any packet with a table of the program. */
  predicate PassesGuards(d: seq<byte>, t: nat, program: int)
    requires t + 17 <= |d|
  {
    AdaptationControl(d[t + 3]) == 1 && d[t + 5] == 0x02 && Program16(d[t + 8], d[t + 9]) == program
  }

  /** Where a receiver looks for the first section of a packet that starts one: behind the adaptation field that byte 3
      announces, if the packet has a payload at all, and behind what the pointer field skips (section 2.4.3 and section
      2.4.4 of ISO/IEC 13818-1). */
  function SectionAt(d: seq<byte>, t: nat): Option<nat>
    requires t + 5 <= |d|
  {
    var control := AdaptationControl(d[t + 3]);
    var payload := if control == 3 then t + 5 + d[t + 4] else t + 4;
    if control % 2 == 0 || payload >= |d| then None else Some(payload + 1 + d[payload])
  }

  /** A printed table is found by the element's parser, and by a receiver, exactly under an adaptation control of
      one. */
  lemma FoundExactly(ts: packetsize, h: Header, l: Listing, p: seq<byte>)
    requires Fits(ts, l) && FieldsInRange(h) && |p| == ts && p[Stamp(ts) + 4..] == Printed(ts, h, l)[4..]
    ensures var t := Stamp(ts);
      && (PassesGuards(p, t, h.program) <==> AdaptationControl(p[t + 3]) == 1)
      && (SectionAt(p, t) == Some(t + 5) <==> AdaptationControl(p[t + 3]) == 1)
      && (AdaptationControl(p[t + 3]) == 3 ==> SectionAt(p, t) == Some(t + 8))
  {
    hide Fits, Section, CrcBytes, Fill, AdaptationControl, Checks;
    TableInPacket(ts, h, l, p);
    var t := Stamp(ts);
    assert p[t + 4] == p[t + 4..][0] == Printed(ts, h, l)[4..][0] == 0;
    ControlOfTwoBits(p[t + 3]);
  }

  lemma ControlOfTwoBits(b: byte)
    ensures 0 <= AdaptationControl(b) < 4
  {
  }

  /** Whenever a table is rewritten, what is sent is the tracked program's table: its fields read as tracked, and
      its CRC checks. Byte 3 is still the received one: a parser gets to the table exactly if the received packet
      had a payload and no adaptation field; if it had both, a receiver starts to read inside the table. */
  lemma SentTable(tr: Tracker, d: seq<byte>, ts: packetsize, cci: byte)
    requires Consistent(tr, ts) && ts <= |d| && Examine(tr, d, ts, cci).Sent?
    requires PidOf(d, Stamp(ts)) == tr.pat.pmtPid && PayloadStart(d[Stamp(ts) + 1])
    requires Examine(tr, d, ts, cci).tracker.pmt.haveNew.On?
    ensures var t, tr', p := Stamp(ts), Examine(tr, d, ts, cci).tracker, Examine(tr, d, ts, cci).packet;
      |p| == ts && tr'.pat == tr.pat && tr'.pmt.version >= 0 && tr'.pmt.pcrPid >= 0 &&
      HeaderReads(p, t, Header(tr.pat.pmtPid, tr.pat.program, tr'.pmt.version, tr'.pmt.pcrPid, cci)) &&
      t + 8 + LengthField(p, t) <= ts && Checks(p[t + 5..t + 8 + LengthField(p, t)]) &&
      (PassesGuards(p, t, tr.pat.program) <==> AdaptationControl(d[t + 3]) == 1) &&
      (SectionAt(p, t) == Some(t + 5) <==> AdaptationControl(d[t + 3]) == 1) &&
      (AdaptationControl(d[t + 3]) == 3 ==> SectionAt(p, t) == Some(t + 8))
  {
    hide PassesGuards, SectionAt, AdaptationControl;
    hide OnPat, OnPmt, Pid, PayloadStart, CacheHolds, Restamped, SoundListing, High5, Low8, Checks, PlacedAt;
    hide HeaderReads, Printed;
    hide Section, SectionFront, Entries;
    ExamineKeepsSize(tr, d, ts, cci);
    var t := Stamp(ts);
    PmtKeeps(tr, d, ts, cci);
    PmtKeepsPat(tr, d, ts, cci);
    var tr1 := OnPmt(tr, d, ts, cci).tracker;
    var l: Listing, c: byte :| SoundListing(l) && Fits(ts, l) &&
      CacheHolds(tr1.cache, ts, Header(tr1.pat.pmtPid, tr1.pat.program, tr1.pmt.version, tr1.pmt.pcrPid, c), l);
    var h := Header(tr1.pat.pmtPid, tr1.pat.program, tr1.pmt.version, tr1.pmt.pcrPid, c);
    HeldBytes(tr1.cache, ts, h, l, d);
    var p := Restamped(tr1.cache, d, t)[..ts];
    TableInPacket(ts, h, l, p);
    FoundExactly(ts, h, l, p);
    OtherCci(p, t, h, h.(cci := cci));
  }

  lemma OtherCci(d: seq<byte>, t: nat, h: Header, h': Header)
    requires t + 17 <= |d| && h' == h.(cci := h'.cci)
    ensures HeaderReads(d, t, h) == HeaderReads(d, t, h')
  {
  }

  lemma TableInPacket(ts: packetsize, h: Header, l: Listing, p: seq<byte>)
    requires Fits(ts, l) && FieldsInRange(h) && |p| == ts && p[Stamp(ts) + 4..] == Printed(ts, h, l)[4..]
    ensures HeaderReads(p, Stamp(ts), h) && LengthField(p, Stamp(ts)) == SectionLength(l)
    ensures Checks(p[Stamp(ts) + 5..Stamp(ts) + 8 + SectionLength(l)])
  {
    hide Printed, Checks, PlacedAt, HeaderReads, Entries, Descriptor, SectionFront;
    PrintedSection(ts, h, l, p);
    PrintedChecks(ts, h, l);
    var t := Stamp(ts);
    PlacedSum(p, t + 5, SectionFront(h, SectionLength(l)) + Descriptor(h.cci), Entries(All(l)));
    PlacedSum(p, t + 5, SectionFront(h, SectionLength(l)), Descriptor(h.cci));
    HeaderReadBack(p, t, h, SectionLength(l));
  }

  // ---------------------------------------------------- rewriting keeps the meaning

  /** A packet with a table that the tracker takes, having none or one of another version, and can print. */
  ghost predicate NewTable(tr: Tracker, d: seq<byte>, ts: packetsize, l: Listing)
    requires ts <= |d|
  {
    var t := Stamp(ts);
    && tr.pat.pmtPid > 0 && PidOf(d, t) == tr.pat.pmtPid && PayloadStart(d[t + 1])
    && TakesPmt(tr, d, t) && OnePacket(d, ts) && ParseListing(d, t) == Parsed(l) && Fits(ts, l)
  }

  lemma TakenIsForgotten(tr: Tracker, d: seq<byte>, t: nat)
    requires t + 17 <= |d| && TakesPmt(tr, d, t)
    ensures Forgotten(tr.pmt, Version(d[t + 10])).have.Off?
  {
  }

  lemma NewTableSent(tr: Tracker, d: seq<byte>, ts: packetsize, cci: byte, l: Listing)
    requires Consistent(tr, ts) && ts <= |d| && NewTable(tr, d, ts, l)
    ensures var t, h, r := Stamp(ts), HeaderOf(tr, d, Stamp(ts), cci), Examine(tr, d, ts, cci);
      && r.Sent? && |r.packet| == ts && r.packet[..t] == d[..t] && r.packet[t + 3] == d[t + 3]
      && r.packet[t] == SYNC && r.packet[t + 1] == 0x60 + High5(h.pmtPid) && r.packet[t + 2] == Low8(h.pmtPid)
      && r.packet[t + 4..] == Printed(ts, h, l)[4..]
      && r.tracker.pmt == PmtState(On, On, h.version, h.pcrPid)
  {
    hide Fits, Printed, Cached, ParseListing, TakesPmt, OnePacket, Restamped, Pid, PayloadStart, High5, Low8;
    hide CacheHolds;
    hide CacheMatches;
    ExamineKeepsSize(tr, d, ts, cci);
    TakenIsForgotten(tr, d, Stamp(ts));
    var h := HeaderOf(tr, d, Stamp(ts), cci);
    var cache := Cached(ts, tr.cache, h, l);
    PrintedIsHeld(tr.cache, ts, h, l);
    HeldBytes(cache, ts, h, l, d);
    assert Examine(tr, d, ts, cci).packet == Restamped(cache, d, Stamp(ts))[..ts];
  }

  lemma HeaderInRange(tr: Tracker, d: seq<byte>, ts: packetsize, cci: byte)
    requires Consistent(tr, ts) && tr.pat.pmtPid > 0 && Stamp(ts) + 17 <= |d|
    ensures FieldsInRange(HeaderOf(tr, d, Stamp(ts), cci))
  {
    hide CacheMatches;
  }

  /** What the element's own parser makes of the table it sends: the version, the clock PID and, exactly when no
      language descriptor holds 31 bytes before a zero, the three stream lists it made of the received one. */
  lemma RewritingKeepsListings(tr: Tracker, d: seq<byte>, ts: packetsize, cci: byte, l: Listing)
    requires Consistent(tr, ts) && ts <= |d| && NewTable(tr, d, ts, l)
    ensures var t, h, r := Stamp(ts), HeaderOf(tr, d, Stamp(ts), cci), Examine(tr, d, ts, cci);
      && r.Sent? && |r.packet| == ts && HeaderReads(r.packet, t, h)
      && r.tracker.pmt == PmtState(On, On, h.version, h.pcrPid)
      && Program16(d[t + 8], d[t + 9]) == h.program
      && (ParseListing(r.packet, t) == ParseListing(d, t) <==> !LongName(l))
  {
    hide Printed, ParseListing, OnePacket, Pid, PayloadStart, High5, Low8, CacheMatches, Examine, HeaderReads, PlacedAt;
    hide Checks, Section, SoundListing, FieldsInRange, Fits, Version;
    NewTableSent(tr, d, ts, cci, l);
    HeaderInRange(tr, d, ts, cci);
    ListingIsSound(d, ts, l);
    var h, p := HeaderOf(tr, d, Stamp(ts), cci), Examine(tr, d, ts, cci).packet;
    TableInPacket(ts, h, l, p);
    PrintedSection(ts, h, l, p);
    ReadsBackExactly(p, ts, h, l);
  }

  lemma ListingIsSound(d: seq<byte>, ts: packetsize, l: Listing)
    requires Stamp(ts) + 17 <= |d| && ParseListing(d, Stamp(ts)) == Parsed(l)
    ensures SoundListing(l)
  {
    hide SoundListing, ParseStreams;
    var t := Stamp(ts);
    EmptyIsSound();
    ParsedIsSound(d, Length12(d[t + 15], d[t + 16]) + 17 + t, t + 8 + LengthField(d, t) - 4, Empty());
  }

  lemma SamePieces(p: seq<byte>, q: seq<byte>, t: nat)
    requires t + 4 <= |p| && |p| == |q| && p[..t] == q[..t] && p[t + 4..] == q[t + 4..]
    requires p[t] == q[t] && p[t + 1] == q[t + 1] && p[t + 2] == q[t + 2] && p[t + 3] == q[t + 3]
    ensures p == q
  {
    assert p == p[..t] + [p[t], p[t + 1], p[t + 2], p[t + 3]] + p[t + 4..];
    assert q == q[..t] + [q[t], q[t + 1], q[t + 2], q[t + 3]] + q[t + 4..];
  }

  lemma PlacedInLonger(p: seq<byte>, rest: seq<byte>, at: nat, part: seq<byte>)
    requires PlacedAt(p, at, part)
    ensures PlacedAt(p + rest, at, part)
  {
    assert (p + rest)[at..at + |part|] == p[at..at + |part|];
  }

  lemma HeaderInLonger(p: seq<byte>, rest: seq<byte>, t: nat, h: Header)
    requires t + 17 <= |p|
    ensures HeaderReads(p + rest, t, h) == HeaderReads(p, t, h)
  {
  }

  /** A tracker with no table, or with one of another version, takes the table again; others do not. */
  predicate Retakes(tr: Tracker, version: int) { tr.pmt.have.Off? || tr.pmt.version != version }

  lemma TakesExactly(tr: Tracker, q: seq<byte>, t: nat, h: Header)
    requires t + 17 <= |q| && HeaderReads(q, t, h) && AdaptationControl(q[t + 3]) == 1 && tr.pat.program == h.program
    ensures TakesPmt(tr, q, t) <==> Retakes(tr, h.version)
  {
  }

  /** A table that is not taken, or too long to be, is passed on as it is by a tracker without a cached one. */
  lemma PassedOn(tr: Tracker, d: seq<byte>, ts: packetsize, cci: byte)
    requires Consistent(tr, ts) && ts <= |d| && tr.pat.pmtPid > 0 && PidOf(d, Stamp(ts)) == tr.pat.pmtPid
    requires if TakesPmt(tr, d, Stamp(ts)) then !OnePacket(d, ts) else tr.pmt.haveNew.Off?
    ensures Examine(tr, d, ts, cci).Sent? && Examine(tr, d, ts, cci).packet == d[..ts]
  {
    hide OnePacket, Pid, PayloadStart, CacheMatches, Restamped, Reprint, Version;
  }

  lemma NoMeaning(tr: Tracker, d: seq<byte>, ts: packetsize, cci: byte)
    requires Consistent(tr, ts) && ts <= |d| && tr.pat.pmtPid > 0 && PidOf(d, Stamp(ts)) == tr.pat.pmtPid
    requires PayloadStart(d[Stamp(ts) + 1]) && TakesPmt(tr, d, Stamp(ts)) && OnePacket(d, ts)
    requires ParseListing(d, Stamp(ts)) == Undefined
    ensures Examine(tr, d, ts, cci).OutOfModel?
  {
    hide OnePacket, Pid, PayloadStart, CacheMatches, Restamped, ParseListing, TakesPmt;
    TakenIsForgotten(tr, d, Stamp(ts));
  }

  lemma RestampedSame(cache: seq<byte>, q: seq<byte>, t: nat, ts: packetsize)
    requires |cache| == CACHE && t == Stamp(ts) && ts <= |q| && q[..ts] == cache[..ts]
    ensures Restamped(cache, q, t) == cache
  {
    assert q[..t] == q[..ts][..t] == cache[..t] && q[t + 3] == q[..ts][t + 3] == cache[t + 3];
  }

  /** A tracker that does not take the table replaces it by its cached one. */
  lemma ReplacedByOwn(tr: Tracker, q: seq<byte>, ts: packetsize, cci: byte)
    requires Consistent(tr, ts) && ts <= |q| && tr.pat.pmtPid > 0 && PidOf(q, Stamp(ts)) == tr.pat.pmtPid
    requires PayloadStart(q[Stamp(ts) + 1]) && !TakesPmt(tr, q, Stamp(ts)) && q[..ts] == tr.cache[..ts]
    ensures Examine(tr, q, ts, cci).Sent? && Examine(tr, q, ts, cci).packet == q[..ts]
  {
    hide OnePacket, Pid, PayloadStart, CacheMatches, Restamped, TakesPmt, Reprint;
    RestampedSame(tr.cache, q, Stamp(ts), ts);
  }

  lemma SentIsCached(tr: Tracker, d: seq<byte>, ts: packetsize, cci: byte)
    requires ts <= |d| && Sized(tr) && Examine(tr, d, ts, cci).Sent? && Examine(tr, d, ts, cci).tracker.pmt.haveNew.On?
    requires PidOf(d, Stamp(ts)) != 0 && PidOf(d, Stamp(ts)) == tr.pat.pmtPid && PayloadStart(d[Stamp(ts) + 1])
    ensures Examine(tr, d, ts, cci).packet == Examine(tr, d, ts, cci).tracker.cache[..ts]
  {
    hide OnPmt, Pid, PayloadStart, Restamped;
    ExamineKeepsSize(tr, d, ts, cci);
  }

  lemma SameHeader(tr: Tracker, d: seq<byte>, t: nat, h: Header)
    requires t + 17 <= |d| && HeaderReads(d, t, h) && tr.pat.program == h.program && tr.pat.pmtPid == h.pmtPid
    ensures HeaderOf(tr, d, t, h.cci) == h
  {
  }

  /** What the sent packet looks like to whoever gets it, with anything behind it. */
  lemma SentAsSeen(tr: Tracker, d: seq<byte>, ts: packetsize, cci: byte, l: Listing, rest: seq<byte>)
    requires Consistent(tr, ts) && ts <= |d| && NewTable(tr, d, ts, l)
    ensures var t, h, r := Stamp(ts), HeaderOf(tr, d, Stamp(ts), cci), Examine(tr, d, ts, cci);
      && r.Sent? && |r.packet| == ts
      && var q := r.packet + rest;
      && HeaderReads(q, t, h) && AdaptationControl(q[t + 3]) == 1 && PidOf(q, t) == tr.pat.pmtPid
      && PayloadStart(q[t + 1]) && ParseListing(q, t) == if LongName(l) then Undefined else Parsed(l)
  {
    hide Printed, ParseListing, OnePacket, Pid, PayloadStart, High5, Low8, CacheMatches, HeaderReads, Program16;
    hide PlacedAt, Section, SoundListing, FieldsInRange, Fits, Version, Examine, Checks;
    NewTableSent(tr, d, ts, cci, l);
    HeaderInRange(tr, d, ts, cci);
    ListingIsSound(d, ts, l);
    var t, h, p := Stamp(ts), HeaderOf(tr, d, Stamp(ts), cci), Examine(tr, d, ts, cci).packet;
    TableInPacket(ts, h, l, p);
    HeaderInLonger(p, rest, t, h);
    PrintedSection(ts, h, l, p);
    PlacedInLonger(p, rest, t + 5, Section(h, l));
    ReadsBackExactly(p + rest, ts, h, l);
    PidSame(d, t, p[t + 1], p[t + 2]);
  }

  /** Rewriting what has been rewritten. Whichever tracker of the same program gets the sent packet, one without a
      table, one with a table of another version, one that only passes tables on, or the very tracker that sent it:
      it sends the same packet again, byte for byte; unless it takes the table and that holds a name of 31 bytes,
      when what happens has no meaning. */
  lemma RewritingAgain(tr: Tracker, d: seq<byte>, ts: packetsize, cci: byte, l: Listing, tr2: Tracker, rest: seq<byte>)
    requires Consistent(tr, ts) && ts <= |d| && NewTable(tr, d, ts, l)
    requires Consistent(tr2, ts) && tr2.pat == tr.pat
    requires
      || Retakes(tr2, Version(d[Stamp(ts) + 10])) || tr2.pmt.haveNew.Off?
      || (Examine(tr, d, ts, cci).Sent? && tr2 == Examine(tr, d, ts, cci).tracker)
    ensures
      && Examine(tr, d, ts, cci).Sent? && |Examine(tr, d, ts, cci).packet| == ts
      && var p, q := Examine(tr, d, ts, cci).packet, Examine(tr, d, ts, cci).packet + rest;
      var again := Examine(tr2, q, ts, cci);
      if Retakes(tr2, Version(d[Stamp(ts) + 10])) && OnePacket(q, ts) && LongName(l) then again.OutOfModel?
      else again.Sent? && again.packet == p
  {
    hide Printed, ParseListing, OnePacket, TakesPmt, Pid, PayloadStart, High5, Low8, CacheMatches, HeaderReads;
    hide Section, Fits, Version, Restamped, Program16, Reprint, Examine, AdaptationControl, LongName, Retakes;
    SentAsSeen(tr, d, ts, cci, l, rest);
    NewTableSent(tr, d, ts, cci, l);
    var t, h, p := Stamp(ts), HeaderOf(tr, d, Stamp(ts), cci), Examine(tr, d, ts, cci).packet;
    var q := p + rest;
    assert q[..t] == p[..t] && q[..ts] == p;
    TakesExactly(tr2, q, t, h);
    SameHeader(tr2, q, t, h);
    if !TakesPmt(tr2, q, t) {
      if tr2.pmt.haveNew.Off? {
        PassedOn(tr2, q, ts, cci);
      } else {
        SentIsCached(tr, d, ts, cci);
        ReplacedByOwn(tr2, q, ts, cci);
      }
    } else if !OnePacket(q, ts) {
      PassedOn(tr2, q, ts, cci);
    } else if LongName(l) {
      NoMeaning(tr2, q, ts, cci);
    } else {
      NewTableSent(tr2, q, ts, cci, l);
      SamePieces(Examine(tr2, q, ts, cci).packet, p, t);
    }
  }

  // ------------------------------------------------- the other element's tables

  /** A table from dtv_source_create_pat, injected for the nth time, gives dtcpencrypt the service, the PID and the
      version. */
  lemma PatReadBack(tr: Tracker, service: nat, pid: nat, version: byte, n: nat, rest: seq<byte>, cci: byte)
    requires Sized(tr) && 1 <= service < 65536 && 1 <= pid < 8192
    requires tr.pat.have.Off? || tr.pat.version != version % 32
    ensures var d := DtvPat.Injected(DtvPat.PatPacket(service, pid, version, 0), n);
      Examine(tr, d + rest, 188, cci) ==
      Sent(tr.(pat := PatState(On, version % 32, service, pid), pmt := tr.pmt.(have := Off, haveNew := Off)), d)
  {
    hide CrcBytes, High5, Low8, High8, Pid, Program16, Length12, PayloadStart, AdaptationControl, Version;
    DtvPat.InjectedCarriesCount(service, pid, version, 0, n);
    var d := DtvPat.PatPacket(service, pid, version, n % 16) + rest;
    PatBytes(service, pid, version, n % 16, rest);
    PatFields(service, pid, version % 32, n % 16);
    assert d[..188] == DtvPat.PatPacket(service, pid, version, n % 16);
  }

  lemma PatBytes(service: nat, pid: nat, version: byte, continuity: byte, rest: seq<byte>)
    ensures var d := DtvPat.PatPacket(service, pid, version, continuity) + rest;
      && d[1] == 0x40 && d[2] == 0 && d[3] == 0x10 + continuity % 16 && d[5] == 0
      && d[6] == 0xb0 && d[7] == 0x0d && d[10] == 0xc1 + 2 * (version % 32)
      && d[13] == High8(service) && d[14] == Low8(service) && d[15] == 0xe0 + High5(pid) && d[16] == Low8(pid)
  {
    hide CrcBytes, High5, Low8, High8, Fill;
    var head, section := DtvPat.PatHead(continuity), DtvPat.PatSection(service, pid, version);
    var d := DtvPat.PatPacket(service, pid, version, continuity) + rest;
    assert forall k :: 0 <= k < 5 ==> d[k] == head[k];
    assert forall k :: 0 <= k < 12 ==> d[5 + k] == section[k];
    assert d[5 + 1] == section[1] && d[5 + 2] == section[2] && d[5 + 5] == section[5] && d[5 + 8] == section[8];
    assert d[5 + 9] == section[9] && d[5 + 10] == section[10] && d[5 + 11] == section[11];
  }

  lemma PatFields(service: nat, pid: nat, version: nat, continuity: nat)
    requires 1 <= service < 65536 && 1 <= pid < 8192 && version < 32 && continuity < 16
    ensures Pid(0x40, 0) == 0 && PayloadStart(0x40) && AdaptationControl(0x10 + continuity) == 1 && Length12(0xb0, 0x0d) == 13
    ensures Version(0xc1 + 2 * version) == version && (0xc1 + 2 * version) % 2 == 1
    ensures Program16(High8(service), Low8(service)) == service && Pid(0xe0 + High5(pid), Low8(pid)) == pid
  {
    hide Pid, Version, Program16, High5, High8, Low8;
    PatConstants(continuity);
    VersionReadBack(version);
    assert version % 32 == version;
    ProgramReadBack(service);
    ReservedBits(pid);
    PidReadBack(0xe0 + High5(pid), pid);
  }

  lemma PatConstants(continuity: nat)
    requires continuity < 16
    ensures Pid(0x40, 0) == 0 && PayloadStart(0x40) && AdaptationControl(0x10 + continuity) == 1 && Length12(0xb0, 0x0d) == 13
  {
    assert (0x10 + continuity) / 16 == 1;
  }

  lemma ReservedBits(pid: nat)
    ensures (0xe0 + High5(pid)) % 32 == High5(pid)
  {
  }
}
