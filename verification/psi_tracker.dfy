/**
 What gst_dtcp_enc_examine_buffer does to the tables it has seen and to the packets it is given,
 as functions, and what holds over any sequence of buffers.
*/
module PsiTracker {
  import opened Bytes
  import opened Psi
  import opened PmtPrint
  import opened PmtParse

  /** versionPAT, program and pmtPid; -1 stands for none, as in the source. */
  datatype PatState = PatState(have: Flag, version: int, program: int, pmtPid: int)

  /** havePMT, haveNewPMT, versionPMT and pcrPid. */
  datatype PmtState = PmtState(have: Flag, haveNew: Flag, version: int, pcrPid: int)

  /** The fields of the element that survive a call; cache is newPMT. */
  datatype Tracker = Tracker(pat: PatState, pmt: PmtState, cache: seq<byte>)

  predicate Sized(tr: Tracker) { |tr.cache| == CACHE }

  // ------------------------------------------------------------- one packet

  /** The guards in front of a program association table. */
  predicate TakesPat(p: PatState, d: seq<byte>, t: nat)
    requires t + 17 <= |d|
  {
    && PayloadStart(d[t + 1]) && AdaptationControl(d[t + 3]) == 1 && d[t + 5] == 0x00
    && (p.have.Off? || (d[t + 10] % 2 == 1 && Version(d[t + 10]) != p.version))
    && LengthField(d, t) == 13
  }

  function OnPat(tr: Tracker, d: seq<byte>, t: nat): Tracker
    requires t + 17 <= |d|
  {
    if !TakesPat(tr.pat, d, t) then tr
    else
      var version := Version(d[t + 10]);
      var program, pmtPid := Program16(d[t + 13], d[t + 14]), Pid(d[t + 15], d[t + 16]);
      if program != 0 && pmtPid != 0 then
        tr.(pat := PatState(On, version, program, pmtPid), pmt := tr.pmt.(have := Off, haveNew := Off))
      else
        tr.(pat := PatState(On, version, -1, -1))
  }

  /** The guards in front of a program map table. */
  predicate TakesPmt(tr: Tracker, d: seq<byte>, t: nat)
    requires t + 17 <= |d|
  {
    && AdaptationControl(d[t + 3]) == 1 && d[t + 5] == 0x02
    && Program16(d[t + 8], d[t + 9]) == tr.pat.program
    && (tr.pmt.have.Off? || (d[t + 10] % 2 == 1 && Version(d[t + 10]) != tr.pmt.version))
  }

  /** The reset on a changed version. */
  function Forgotten(m: PmtState, version: int): PmtState {
    if m.have.On? && version != m.version then m.(have := Off, haveNew := Off) else m
  }

  datatype Taken = Taken(tracker: Tracker) | TakeFails(tracker: Tracker) | TakeUndefined

  function HeaderOf(tr: Tracker, d: seq<byte>, t: nat, cci: byte): Header
    requires t + 17 <= |d| && tr.pat.program >= 0 && tr.pat.pmtPid >= 0
  {
    Header(tr.pat.pmtPid, tr.pat.program, Version(d[t + 10]), Pid(d[t + 13], d[t + 14]), cci)
  }

  /** Parsing the table and printing it with the descriptor. */
  function Reprint(tr: Tracker, d: seq<byte>, ts: packetsize, cci: byte): Taken
    requires ts <= |d| && Sized(tr) && tr.pat.program >= 0 && tr.pat.pmtPid >= 0
  {
    var t := Stamp(ts);
    match ParseListing(d, t)
    case Rejected => TakeFails(tr)
    case Undefined => TakeUndefined
    case Parsed(l) =>
      var h := HeaderOf(tr, d, t, cci);
      if !Fits(ts, l) then TakeUndefined
      else Taken(tr.(pmt := PmtState(On, On, h.version, h.pcrPid), cache := Cached(ts, tr.cache, h, l)))
  }

  function OnPmt(tr: Tracker, d: seq<byte>, ts: packetsize, cci: byte): Taken
    requires ts <= |d| && Sized(tr) && tr.pat.pmtPid >= 0
  {
    var t := Stamp(ts);
    if !TakesPmt(tr, d, t) then Taken(tr)
    else
      var tr1 := tr.(pmt := Forgotten(tr.pmt, Version(d[t + 10])));
      if tr1.pmt.have.On? || !OnePacket(d, ts) then Taken(tr1) else Reprint(tr1, d, ts, cci)
  }

  /** newPMT with the stamp and the continuity byte of the packet it is to replace. */
  function Restamped(cache: seq<byte>, d: seq<byte>, t: nat): (r: seq<byte>)
    requires t + 4 <= |d| && t + 4 <= |cache|
    ensures |r| == |cache|
  {
    d[..t] + cache[t..t + 3] + [d[t + 3]] + cache[t + 4..]
  }

  datatype Outcome = Sent(tracker: Tracker, packet: seq<byte>) | GivesUp(tracker: Tracker) | OutOfModel

  function PidOf(d: seq<byte>, t: nat): nat
    requires t + 3 <= |d|
  {
    Pid(d[t + 1], d[t + 2])
  }

  /** What happens to the packet at the front of d, and to the fields. */
  function Examine(tr: Tracker, d: seq<byte>, ts: packetsize, cci: byte): Outcome
    requires ts <= |d| && Sized(tr)
  {
    var t := Stamp(ts);
    if PidOf(d, t) == 0 then Sent(OnPat(tr, d, t), d[..ts])
    else if PidOf(d, t) != tr.pat.pmtPid || !PayloadStart(d[t + 1]) then Sent(tr, d[..ts])
    else
      match OnPmt(tr, d, ts, cci)
      case TakeFails(tr1) => GivesUp(tr1)
      case TakeUndefined => OutOfModel
      case Taken(tr1) =>
        if tr1.pmt.haveNew.Off? then Sent(tr1, d[..ts])
        else
          var cache := Restamped(tr1.cache, d, t);
          Sent(tr1.(cache := cache), cache[..ts])
  }

  // ------------------------------------------------------------- one buffer

  datatype Examined = Done(tracker: Tracker, out: seq<byte>, ok: bool) | BufferOutOfModel

  /** n bytes are whole packets. */
  predicate Whole(n: nat, ts: packetsize) {
    if ts == 188 then n % 188 == 0 else n % 192 == 0
  }

  lemma WholeLess(n: nat, ts: packetsize)
    requires n > 0 && Whole(n, ts)
    ensures n >= ts && Whole(n - ts, ts)
  {
    if ts == 188 {
      var q := n / 188;
      assert n == 188 * q && n - 188 == 188 * (q - 1);
    } else {
      var q := n / 192;
      assert n == 192 * q && n - 192 == 192 * (q - 1);
    }
  }

  /** The loop over the packets. */
  function ExamineAll(tr: Tracker, d: seq<byte>, ts: packetsize, cci: byte): (r: Examined)
    requires Sized(tr) && Whole(|d|, ts)
    decreases |d|
  {
    if d == [] then Done(tr, [], true)
    else
      WholeLess(|d|, ts);
      match Examine(tr, d, ts, cci)
      case OutOfModel => BufferOutOfModel
      case GivesUp(tr1) => Done(tr1, d, false)
      case Sent(tr1, packet) =>
        ExamineKeepsSize(tr, d, ts, cci);
        match ExamineAll(tr1, d[ts..], ts, cci)
        case BufferOutOfModel => BufferOutOfModel
        case Done(tr2, out, ok) => Done(tr2, packet + out, ok)
  }

  predicate Aligned(d: seq<byte>, ts: packetsize)
    requires Stamp(ts) < |d|
  {
    d[Stamp(ts)] == SYNC && Whole(|d|, ts)
  }

  /** The whole function: a buffer that is not aligned is refused. */
  function ExamineBuffer(tr: Tracker, d: seq<byte>, ts: packetsize, cci: byte): Examined
    requires Sized(tr) && Stamp(ts) < |d|
  {
    if Aligned(d, ts) then ExamineAll(tr, d, ts, cci) else Done(tr, d, false)
  }

  lemma ExamineKeepsSize(tr: Tracker, d: seq<byte>, ts: packetsize, cci: byte)
    requires ts <= |d| && Sized(tr)
    ensures Examine(tr, d, ts, cci).Sent? ==> Sized(Examine(tr, d, ts, cci).tracker) && |Examine(tr, d, ts, cci).packet| == ts
    ensures Examine(tr, d, ts, cci).GivesUp? ==> Sized(Examine(tr, d, ts, cci).tracker)
  {
    hide Fits, Cached, TakesPat, TakesPmt, ParseListing, OnePacket, Pid, Program16, Version, PayloadStart;
  }

  // ------------------------------------------------------------- invariants

  /** The cached packet is a printed table, up to the stamp and the continuity byte. */
  predicate CacheHolds(cache: seq<byte>, ts: packetsize, h: Header, l: Listing)
    requires |cache| == CACHE && Fits(ts, l)
  {
    var t, printed := Stamp(ts), Printed(ts, h, l);
    cache[t..t + 3] == printed[..3] && cache[t + 4..ts] == printed[4..]
  }

  /** It is the table of the tracked program, of the tracked version, on the tracked PID. */
  ghost predicate CacheMatches(tr: Tracker, ts: packetsize)
    requires Sized(tr) && tr.pat.pmtPid >= 0 && tr.pat.program >= 0
  {
    tr.pmt.version >= 0 && tr.pmt.pcrPid >= 0 &&
    exists l: Listing, cci: byte :: SoundListing(l) && Fits(ts, l) &&
      CacheHolds(tr.cache, ts, Header(tr.pat.pmtPid, tr.pat.program, tr.pmt.version, tr.pmt.pcrPid, cci), l)
  }

  predicate Acquired(tr: Tracker) {
    && (tr.pmt.haveNew.On? ==> tr.pmt.have.On?)
    && (tr.pmt.have.On? ==> tr.pat.have.On?)
  }

  predicate Known(p: PatState) {
    || (p.program == -1 && p.pmtPid == -1)
    || (p.have.On? && 0 < p.program < 65536 && 0 < p.pmtPid < 8192)
  }

  ghost predicate Consistent(tr: Tracker, ts: packetsize) {
    && Sized(tr) && Acquired(tr) && Known(tr.pat)
    && (tr.pmt.haveNew.On? && tr.pat.pmtPid != -1 ==>
        0 <= tr.pmt.version < 32 && 0 <= tr.pmt.pcrPid < 8192 && CacheMatches(tr, ts))
  }

  lemma PatKeeps(tr: Tracker, d: seq<byte>, ts: packetsize)
    requires Consistent(tr, ts) && ts <= |d|
    ensures Consistent(OnPat(tr, d, Stamp(ts)), ts)
  {
    hide TakesPat, CacheMatches;
    var t := Stamp(ts);
    assert Program16(d[t + 13], d[t + 14]) < 65536 && Pid(d[t + 15], d[t + 16]) < 8192;
  }

  lemma PrintedIsHeld(cache: seq<byte>, ts: packetsize, h: Header, l: Listing)
    requires |cache| == CACHE && Fits(ts, l)
    ensures CacheHolds(Cached(ts, cache, h, l), ts, h, l)
  {
    hide Fits, Printed, Overlaid, FillFrom, SecondHead;
    var t, printed, held := Stamp(ts), Printed(ts, h, l), Cached(ts, cache, h, l);
    var from := FillFrom(ts, Size(ts, l));
    var headed := if Size(ts, l) < ts then cache else Overlaid(cache, ts + t, SecondHead(h.pmtPid));
    OverlaidPart(Overlaid(headed, from, Fill(CACHE - from)), t, printed);
    SlicedTwice(held, t, 188, 0, 3);
    SlicedTwice(held, t, 188, 4, 188);
    assert printed[0..3] == printed[..3] && printed[4..188] == printed[4..];
  }

  lemma ReprintKeeps(tr: Tracker, d: seq<byte>, ts: packetsize, cci: byte)
    requires Consistent(tr, ts) && tr.pat.pmtPid > 0 && tr.pmt.have.Off? && ts <= |d|
    ensures Reprint(tr, d, ts, cci).Taken? ==> Consistent(Reprint(tr, d, ts, cci).tracker, ts)
    ensures Reprint(tr, d, ts, cci).TakeFails? ==> Consistent(Reprint(tr, d, ts, cci).tracker, ts)
  {
    hide Fits, Cached, ParseStreams, SoundListing, CacheHolds;
    var t := Stamp(ts);
    match ParseListing(d, t)
    case Parsed(l) =>
      EmptyIsSound();
      ParsedIsSound(d, Length12(d[t + 15], d[t + 16]) + 17 + t, t + 8 + LengthField(d, t) - 4, Empty());
      if Fits(ts, l) {
        PrintedIsHeld(tr.cache, ts, HeaderOf(tr, d, t, cci), l);
        assert CacheHolds(Reprint(tr, d, ts, cci).tracker.cache, ts, HeaderOf(tr, d, t, cci), l);
      }
    case _ =>
  }

  lemma EmptyIsSound()
    ensures SoundListing(Empty())
  {
  }

  lemma PmtKeeps(tr: Tracker, d: seq<byte>, ts: packetsize, cci: byte)
    requires Consistent(tr, ts) && tr.pat.pmtPid > 0 && ts <= |d|
    ensures OnPmt(tr, d, ts, cci).Taken? ==> Consistent(OnPmt(tr, d, ts, cci).tracker, ts)
    ensures OnPmt(tr, d, ts, cci).TakeFails? ==> Consistent(OnPmt(tr, d, ts, cci).tracker, ts)
  {
    hide Reprint, TakesPmt, OnePacket, CacheMatches, Version;
    var t := Stamp(ts);
    var tr1 := tr.(pmt := Forgotten(tr.pmt, Version(d[t + 10])));
    assert Consistent(tr1, ts);
    if TakesPmt(tr, d, t) && tr1.pmt.have.Off? {
      ReprintKeeps(tr1, d, ts, cci);
    }
  }

  lemma RestampKeeps(cache: seq<byte>, d: seq<byte>, ts: packetsize, h: Header, l: Listing)
    requires |cache| == CACHE && Fits(ts, l) && Stamp(ts) + 4 <= |d| && CacheHolds(cache, ts, h, l)
    ensures CacheHolds(Restamped(cache, d, Stamp(ts)), ts, h, l)
  {
    hide Fits, Printed;
    var t := Stamp(ts);
    assert Restamped(cache, d, t)[t..t + 3] == cache[t..t + 3];
    assert Restamped(cache, d, t)[t + 4..ts] == cache[t + 4..ts];
  }

  lemma RestampKeepsMatch(tr: Tracker, d: seq<byte>, ts: packetsize)
    requires Consistent(tr, ts) && ts <= |d|
    ensures Consistent(tr.(cache := Restamped(tr.cache, d, Stamp(ts))), ts)
  {
    hide Fits, Printed, SoundListing, CacheHolds, Restamped;
    if tr.pmt.haveNew.On? && tr.pat.pmtPid != -1 {
      var l: Listing, cci: byte :| SoundListing(l) && Fits(ts, l) &&
        CacheHolds(tr.cache, ts, Header(tr.pat.pmtPid, tr.pat.program, tr.pmt.version, tr.pmt.pcrPid, cci), l);
      RestampKeeps(tr.cache, d, ts, Header(tr.pat.pmtPid, tr.pat.program, tr.pmt.version, tr.pmt.pcrPid, cci), l);
    }
  }

  /** Every packet, whatever it is, keeps the fields consistent. */
  lemma ExamineKeeps(tr: Tracker, d: seq<byte>, ts: packetsize, cci: byte)
    requires Consistent(tr, ts) && ts <= |d|
    ensures Examine(tr, d, ts, cci).Sent? ==> Consistent(Examine(tr, d, ts, cci).tracker, ts)
    ensures Examine(tr, d, ts, cci).GivesUp? ==> Consistent(Examine(tr, d, ts, cci).tracker, ts)
  {
    hide OnPat, OnPmt, Pid, PayloadStart, CacheMatches, Restamped;
    var t := Stamp(ts);
    if PidOf(d, t) == 0 {
      PatKeeps(tr, d, ts);
    } else if PidOf(d, t) == tr.pat.pmtPid && PayloadStart(d[t + 1]) {
      PmtKeeps(tr, d, ts, cci);
      match OnPmt(tr, d, ts, cci)
      case Taken(tr1) => RestampKeepsMatch(tr1, d, ts);
      case _ =>
    }
  }

  lemma {:induction false} BufferKeeps(tr: Tracker, d: seq<byte>, ts: packetsize, cci: byte)
    requires Consistent(tr, ts) && Whole(|d|, ts) && ExamineAll(tr, d, ts, cci).Done?
    ensures Consistent(ExamineAll(tr, d, ts, cci).tracker, ts)
    ensures |ExamineAll(tr, d, ts, cci).out| == |d|
    decreases |d|
  {
    hide Examine, Consistent, Whole;
    if d != [] {
      WholeLess(|d|, ts);
      assert Sized(tr) by { SizedWhenConsistent(tr, ts); }
      ExamineKeeps(tr, d, ts, cci);
      ExamineKeepsSize(tr, d, ts, cci);
      match Examine(tr, d, ts, cci)
      case Sent(tr1, _) => BufferKeeps(tr1, d[ts..], ts, cci);
      case _ =>
    }
  }

  lemma SizedWhenConsistent(tr: Tracker, ts: packetsize)
    requires Consistent(tr, ts)
    ensures Sized(tr)
  {
  }
}
