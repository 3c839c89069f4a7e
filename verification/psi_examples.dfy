/** Received tables that do not survive rewriting. */
module PsiExamples {
  import opened Bytes
  import opened Psi
  import opened PmtPrint
  import opened PmtParse
  import opened PsiTracker
  import opened PsiTheorems
  import opened PsiEntries

  function Name31(): (r: seq<byte>)
    ensures |r| == 31
  {
    seq(31, _ => 0x61)
  }

  // ------------------------------------------------------- a name of 31 bytes

  /** Header, program 1 on PID 32, clock PID 33, and one audio stream on PID 34 with a descriptor of 31 bytes. */
  function LongNameFront(): (r: seq<byte>)
    ensures |r| == 24
  {
    [SYNC, 0x40, 0x20, 0x10, 0x00, 0x02, 0xb0, 0x33, 0x00, 0x01, 0xc1, 0x00, 0x00, 0xe0, 0x21, 0xf0, 0x00,
     0x0f, 0xe0, 0x22, 0xf0, 0x21, 0x0a, 0x1f]
  }

  function LongNamePacket(): (r: seq<byte>)
    ensures |r| == 188
  {
    LongNameFront() + Name31() + CrcBytes(LongNameFront()[5..] + Name31()) + Fill(129)
  }

  /** A tracker that has seen the program in a PAT, and no table yet. */
  function Waiting(): Tracker {
    Tracker(PatState(On, 0, 1, 32), PmtState(Off, Off, -1, -1), seq(CACHE, _ => 0))
  }

  function OneAudio(): Listing { Listing([], [Stream(0x0f, 34, Name31())], []) }

  lemma LongNameBytes(k: nat)
    requires k < 24
    ensures LongNamePacket()[k] == LongNameFront()[k]
  {
    hide LongNameFront, Name31, CrcBytes, Fill;
  }

  lemma LongNameName()
    ensures LongNamePacket()[24..55] == Name31()
  {
    hide LongNameFront, Name31, CrcBytes, Fill;
  }

  lemma NameKept()
    ensures UpToNul(Name31()) == Name31()
  {
    hide UpToNul;
    assert 0 !in Name31();
  }

  lemma LongNameParses()
    ensures var d := LongNamePacket(); ParseListing(d, 0) == Parsed(OneAudio())
  {
    hide LongNamePacket, Name31, UpToNul;
    var d := LongNamePacket();
    forall k: nat | k < 24 ensures d[k] == LongNameFront()[k] {
      LongNameBytes(k);
    }
    LongNameName();
    NameKept();
    assert d[6] == 0xb0 && d[7] == 0x33 && d[15] == 0xf0 && d[16] == 0;
    assert d[17] == 0x0f && d[18] == 0xe0 && d[19] == 0x22 && d[20] == 0xf0 && d[21] == 0x21;
    assert d[22] == 0x0a && d[23] == 0x1f;
    assert Walk(d, 55, 55, Name31()) == Name(Name31());
    assert NameOf(d, 22, 33) == Name(Name31());
    assert [] + [Stream(0x0f, 34, Name31())] == [Stream(0x0f, 34, Name31())];
    assert Add(Empty(), Stream(0x0f, 34, Name31())) == OneAudio();
    assert ParseStreams(d, 55, 55, OneAudio()) == Parsed(OneAudio());
    assert ParseStreams(d, 17, 55, Empty()) == Parsed(OneAudio());
  }

  lemma LongNameFits()
    ensures Fits(188, OneAudio()) && SectionLength(OneAudio()) == 58
  {
    hide Name31;
    var s := Stream(0x0f, 34, Name31());
    assert All(OneAudio()) == [s] && [s][1..] == [];
    assert Entries([s]) == EntryBytes(s) + Entries([]);
  }

  lemma LongNameTaken()
    ensures Consistent(Waiting(), 188) && NewTable(Waiting(), LongNamePacket(), 188, OneAudio())
  {
    hide LongNamePacket, ParseListing, Fits, OneAudio, SectionLength;
    LongNameParses();
    LongNameFits();
    var d := LongNamePacket();
    forall k: nat | k < 24 ensures d[k] == LongNameFront()[k] {
      LongNameBytes(k);
    }
    assert d[1] == 0x40 && d[2] == 0x20 && d[3] == 0x10 && d[5] == 0x02 && d[6] == 0xb0 && d[7] == 0x33;
    assert d[8] == 0 && d[9] == 1;
  }

  lemma LongNameSent(tr: Tracker, d: seq<byte>)
    requires Consistent(tr, 188) && 188 <= |d| && NewTable(tr, d, 188, OneAudio())
    ensures var r := Examine(tr, d, 188, 0); r.Sent? && |r.packet| == 188 && OnePacket(r.packet, 188)
  {
    hide Name31, Examine, Printed, Entries, CacheMatches, ParseListing, TakesPmt, Fits, Checks, HeaderReads;
    NewTableSent(tr, d, 188, 0, OneAudio());
    HeaderInRange(tr, d, 188, 0);
    LongNameFits();
    TableInPacket(188, HeaderOf(tr, d, 0, 0), OneAudio(), Examine(tr, d, 188, 0).packet);
  }

  /** The element prints a table it can itself no longer read: the copy in its parser would leave the array. */
  lemma LongNameIsLost()
    ensures var tr, d := Waiting(), LongNamePacket();
      && Consistent(tr, 188) && NewTable(tr, d, 188, OneAudio()) && LongName(OneAudio())
      && var r := Examine(tr, d, 188, 0);
      r.Sent? && |r.packet| == 188 && ParseListing(r.packet, 0) == Undefined && Examine(tr, r.packet, 188, 0).OutOfModel?
  {
    hide LongNamePacket, Name31, ParseListing, NewTable, Examine, Consistent, OnePacket;
    LongNameTaken();
    var tr, d, l := Waiting(), LongNamePacket(), OneAudio();
    assert |l.audio[0].name| > 30;
    SentAsSeen(tr, d, 188, 0, l, []);
    var p := Examine(tr, d, 188, 0).packet;
    assert p + [] == p;
    LongNameSent(tr, d);
    RewritingAgain(tr, d, 188, 0, l, tr, []);
  }

  // -------------------------------------------------------------- H.264 video

  /** Program 1, clock PID 33, and one stream of type 0x1b on PID 34. */
  function VideoSection(): (r: seq<byte>)
    ensures |r| == 17
  {
    [0x02, 0xb0, 0x12, 0x00, 0x01, 0xc1, 0x00, 0x00, 0xe0, 0x21, 0xf0, 0x00, 0x1b, 0xe0, 0x22, 0xf0, 0x00]
  }

  function VideoPacket(): (r: seq<byte>)
    ensures |r| == 188
  {
    [SYNC, 0x40, 0x20, 0x10, 0x00] + VideoSection() + CrcBytes(VideoSection()) + Fill(162)
  }

  lemma VideoBytes()
    ensures var d := VideoPacket();
      && d[1] == 0x40 && d[2] == 0x20 && d[3] == 0x10 && d[4] == 0x00 && d[5] == 0x02 && d[6] == 0xb0 && d[7] == 0x12
      && d[8] == 0x00 && d[9] == 0x01 && d[10] == 0xc1 && d[13] == 0xe0 && d[14] == 0x21 && d[15] == 0xf0 && d[16] == 0x00
      && d[17] == 0x1b && d[18] == 0xe0 && d[19] == 0x22 && d[20] == 0xf0 && d[21] == 0x00
  {
    hide CrcBytes, Fill;
  }

  lemma VideoParses()
    ensures ParseListing(VideoPacket(), 0) == Parsed(Empty())
    ensures TableEntries(VideoPacket(), 0) == [Entry(0x1b, 34)]
  {
    VideoBytes();
    hide VideoPacket;
    var d := VideoPacket();
    assert ParseStreams(d, 22, 22, Empty()) == Parsed(Empty());
    assert ParseStreams(d, 17, 22, Empty()) == Parsed(Empty());
    assert StreamLoop(d, 22, 22) == [];
    assert StreamLoop(d, 17, 22) == [Entry(0x1b, 34)];
  }

  lemma EmptyFits()
    ensures Fits(188, Empty()) && SectionLength(Empty()) == 19
  {
    assert All(Empty()) == [];
  }

  lemma VideoTaken()
    ensures Consistent(Waiting(), 188) && NewTable(Waiting(), VideoPacket(), 188, Empty())
  {
    VideoParses();
    VideoBytes();
    EmptyFits();
    hide VideoPacket, ParseListing, Fits, Empty, SectionLength, TableEntries;
  }

  lemma NoLongName()
    ensures !LongName(Empty())
  {
  }

  lemma EmptySent(tr: Tracker, d: seq<byte>)
    requires Consistent(tr, 188) && 188 <= |d| && NewTable(tr, d, 188, Empty())
    ensures var r := Examine(tr, d, 188, 0); r.Sent? && |r.packet| == 188 && LengthField(r.packet, 0) == 19
  {
    hide Examine, Printed, Entries, CacheMatches, ParseListing, TakesPmt, Fits, Checks, HeaderReads, SectionLength;
    NewTableSent(tr, d, 188, 0, Empty());
    HeaderInRange(tr, d, 188, 0);
    EmptyFits();
    TableInPacket(188, HeaderOf(tr, d, 0, 0), Empty(), Examine(tr, d, 188, 0).packet);
  }

  lemma OnlyIgnored(d: seq<byte>)
    requires |d| == 188 && TableEntries(d, 0) == [Entry(0x1b, 34)]
    ensures Grouped(TableEntries(d, 0)) == []
  {
    hide TableEntries, OfClass;
    var video := Entry(0x1b, 34);
    assert [video] + [] == [video];
    FirstOfClass(video, [], Video);
    FirstOfClass(video, [], Audio);
    FirstOfClass(video, [], Data);
    NoneOfClass(Video);
    NoneOfClass(Audio);
    NoneOfClass(Data);
  }

  lemma NoneOfClass(c: Class)
    ensures OfClass([], c) == []
  {
  }

  /** The only stream of the program is not in the table sent, which has no stream at all; to the element's own
      parser the two tables are the same. */
  lemma StreamIsDropped()
    ensures var tr, d := Waiting(), VideoPacket();
      && Consistent(tr, 188) && NewTable(tr, d, 188, Empty()) && TableEntries(d, 0) == [Entry(0x1b, 34)]
      && var r := Examine(tr, d, 188, 0);
      r.Sent? && |r.packet| == 188 && TableEntries(r.packet, 0) == [] && LengthField(r.packet, 0) == 19 &&
      ParseListing(r.packet, 0) == ParseListing(d, 0)
  {
    hide VideoPacket, Waiting, ParseListing, NewTable, Examine, Consistent, TableEntries, HeaderReads, Grouped;
    hide HeaderOf;
    hide Supported, LengthField, Empty;
    VideoTaken();
    VideoParses();
    var tr, d := Waiting(), VideoPacket();
    OnlyIgnored(d);
    RewritingKeepsMeaning(tr, d, 188, 0, Empty());
    NoLongName();
    EmptySent(tr, d);
  }

  // -------------------------------------------------------- an adaptation field

  /** The same table behind an adaptation field of one byte. */
  function AdaptedPacket(): (r: seq<byte>)
    ensures |r| == 188
  {
    [SYNC, 0x40, 0x20, 0x30, 0x01, 0x00, 0x00] + VideoSection() + CrcBytes(VideoSection()) + Fill(160)
  }

  lemma AdaptedBytes()
    ensures var d := AdaptedPacket();
      d[1] == 0x40 && d[2] == 0x20 && d[3] == 0x30 && d[4] == 0x01 && d[6] == 0x00 && d[7] == 0x02
  {
    hide CrcBytes, Fill;
  }

  lemma AdaptedFound()
    ensures var d := AdaptedPacket(); SectionAt(d, 0) == Some(7) && d[7..24] == VideoSection()
  {
    AdaptedBytes();
    hide CrcBytes, Fill, VideoSection;
    assert AdaptedPacket()[7..24] == VideoSection();
    hide AdaptedPacket;
  }

  /** The fields once the table above has been taken. */
  function Holding(): Tracker
  {
    match Examine(Waiting(), VideoPacket(), 188, 0)
    case Sent(tr, _) => tr
    case _ => Waiting()
  }

  lemma HoldingIsConsistent()
    ensures Consistent(Holding(), 188) && Holding().pmt.haveNew.On? && Holding().pat == Waiting().pat
  {
    VideoTaken();
    var tr, d := Waiting(), VideoPacket();
    assert tr.pat.pmtPid == 32;
    hide VideoPacket, Waiting, Consistent, NewTable;
    NewTableSent(tr, d, 188, 0, Empty());
    ExamineKeeps(tr, d, 188, 0);
    SentKeepsPat(tr, d);
  }

  lemma SentKeepsPat(tr: Tracker, d: seq<byte>)
    requires Consistent(tr, 188) && |d| == 188 && NewTable(tr, d, 188, Empty()) && Examine(tr, d, 188, 0).Sent?
    ensures Examine(tr, d, 188, 0).tracker.pat == tr.pat
  {
    hide OnPmt, ParseListing, TakesPmt, CacheMatches, OnePacket, Fits, Pid, PayloadStart;
    PmtKeepsPat(tr, d, 188, 0);
    ExamineKeepsSize(tr, d, 188, 0);
  }

  lemma AdaptedIsReplaced(tr: Tracker, d: seq<byte>)
    requires Sized(tr) && |d| == 188 && tr.pat.pmtPid == 32 && tr.pmt.haveNew.On?
    requires d[1] == 0x40 && d[2] == 0x20 && AdaptationControl(d[3]) != 1
    ensures Examine(tr, d, 188, 0).Sent? && Examine(tr, d, 188, 0).tracker.pmt == tr.pmt
  {
    assert PidOf(d, 0) == 32 && PayloadStart(d[1]) && !TakesPmt(tr, d, 0);
    hide TakesPmt, Restamped, Reprint;
  }

  /** A legal packet, in which a receiver finds the table, is replaced by one in which it starts to read three bytes
      into the table, and which the element's own parser refuses. */
  lemma AdaptedTableIsSpoilt()
    ensures var tr, d := Holding(), AdaptedPacket();
      && Consistent(tr, 188) && SectionAt(d, 0) == Some(7) && d[7..24] == VideoSection()
      && var r := Examine(tr, d, 188, 0);
      r.Sent? && |r.packet| == 188 && SectionAt(r.packet, 0) == Some(8) && !PassesGuards(r.packet, 0, 1)
  {
    hide Holding, AdaptedPacket, VideoSection, Consistent, Examine, PassesGuards, Checks, HeaderReads, SectionAt;
    hide LengthField;
    HoldingIsConsistent();
    AdaptedFound();
    AdaptedBytes();
    var tr, d := Holding(), AdaptedPacket();
    assert tr.pat == PatState(On, 0, 1, 32);
    SizedWhenConsistent(tr, 188);
    AdaptedIsReplaced(tr, d);
    SentTable(tr, d, 188, 0);
  }
}
