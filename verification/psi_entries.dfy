/**
 What rewriting does to the streams of a table, whatever their types. A receiver's loop over the table sees every
 stream; dtcpencrypt's own parser sorts them into three lists and leaves out the types it does not support. What is
 printed has the DTCP descriptor for the program's descriptors and, of each stream's own, a language descriptor at
 most.
*/
module PsiEntries {
  import opened Bytes
  import opened Psi
  import opened PmtPrint
  import opened PmtParse
  import opened PsiTracker
  import opened PsiTheorems

  datatype Entry = Entry(kind: byte, pid: nat)

  /** The streams from index p up to the first not below end. */
  function StreamLoop(d: seq<byte>, p: nat, end: int): seq<Entry>
    decreases end - p
  {
    if p >= end || p + 5 > |d| then []
    else [Entry(d[p], Pid(d[p + 1], d[p + 2]))] + StreamLoop(d, p + 5 + Length12(d[p + 3], d[p + 4]), end)
  }

  /** The streams of the table whose section starts behind t + 5 bytes. */
  function TableEntries(d: seq<byte>, t: nat): seq<Entry>
    requires t + 17 <= |d|
  {
    StreamLoop(d, Length12(d[t + 15], d[t + 16]) + 17 + t, t + 8 + LengthField(d, t) - 4)
  }

  function EntriesOf(ss: seq<Stream>): seq<Entry> {
    if ss == [] then [] else [Entry(ss[0].kind, ss[0].pid)] + EntriesOf(ss[1..])
  }

  /** The entries of one class, in their order. */
  function OfClass(es: seq<Entry>, c: Class): seq<Entry> {
    if es == [] then [] else (if ClassOf(es[0].kind) == c then [es[0]] else []) + OfClass(es[1..], c)
  }

  // ------------------------------------------------------ what the parser keeps

  lemma {:induction false} EntriesOfAppend(a: seq<Stream>, b: seq<Stream>)
    ensures EntriesOf(a + b) == EntriesOf(a) + EntriesOf(b)
  {
    if a == [] {
      assert a + b == b;
    } else {
      assert (a + b)[1..] == a[1..] + b;
      EntriesOfAppend(a[1..], b);
    }
  }

  lemma EntriesOfSnoc(a: seq<Stream>, s: Stream)
    ensures EntriesOf(a + [s]) == EntriesOf(a) + [Entry(s.kind, s.pid)]
  {
    EntriesOfAppend(a, [s]);
    assert [s][1..] == [];
  }

  function ListOf(l: Listing, c: Class): seq<Stream> {
    match c
    case Video => l.video
    case Audio => l.audio
    case Data => l.data
    case Ignored => []
  }

  /** One stream goes to the back of its list, if its class has one. */
  lemma AddedEntry(l: Listing, s: Stream, c: Class)
    requires !c.Ignored?
    ensures EntriesOf(ListOf(Add(l, s), c)) ==
      EntriesOf(ListOf(l, c)) + (if ClassOf(s.kind) == c then [Entry(s.kind, s.pid)] else [])
  {
    hide ClassOf, EntriesOf;
    EntriesOfSnoc(ListOf(l, c), s);
    assert EntriesOf(ListOf(l, c)) + [] == EntriesOf(ListOf(l, c));
  }

  /** The loop of the parser appends to each list the entries of its class, in their order. */
  lemma {:induction false} ParsedEntries(d: seq<byte>, p: nat, end: int, l: Listing, c: Class)
    requires ParseStreams(d, p, end, l).Parsed? && !c.Ignored?
    ensures EntriesOf(ListOf(ParseStreams(d, p, end, l).listing, c)) ==
      EntriesOf(ListOf(l, c)) + OfClass(StreamLoop(d, p, end), c)
    decreases end - p
  {
    hide ClassOf, Add, ListOf, CountOf, NameOf, EntriesOf, Pid, Length12;
    if p >= end {
      assert EntriesOf(ListOf(l, c)) + [] == EntriesOf(ListOf(l, c));
    } else {
      var pid, length := Pid(d[p + 1], d[p + 2]), Length12(d[p + 3], d[p + 4]);
      var named := if ClassOf(d[p]).Audio? then NameOf(d, p + 5, length) else Name([]);
      var s, first := Stream(d[p], pid, named.name), Entry(d[p], pid);
      var rest := StreamLoop(d, p + 5 + length, end);
      AddedEntry(l, s, c);
      ParsedEntries(d, p + 5 + length, end, Add(l, s), c);
      FirstOfClass(first, rest, c);
      Associates(EntriesOf(ListOf(l, c)), if ClassOf(d[p]) == c then [first] else [], OfClass(rest, c));
    }
  }

  lemma FirstOfClass(e: Entry, rest: seq<Entry>, c: Class)
    ensures OfClass([e] + rest, c) == (if ClassOf(e.kind) == c then [e] else []) + OfClass(rest, c)
  {
    hide ClassOf;
    assert ([e] + rest)[1..] == rest;
  }

  lemma ListedEntries(d: seq<byte>, t: nat, l: Listing)
    requires t + 17 <= |d| && ParseListing(d, t) == Parsed(l)
    ensures EntriesOf(l.video) == OfClass(TableEntries(d, t), Video)
    ensures EntriesOf(l.audio) == OfClass(TableEntries(d, t), Audio)
    ensures EntriesOf(l.data) == OfClass(TableEntries(d, t), Data)
  {
    hide ParseStreams, StreamLoop, OfClass;
    var start, end := Length12(d[t + 15], d[t + 16]) + 17 + t, t + 8 + LengthField(d, t) - 4;
    ParsedEntries(d, start, end, Empty(), Video);
    ParsedEntries(d, start, end, Empty(), Audio);
    ParsedEntries(d, start, end, Empty(), Data);
  }

  // ----------------------------------------------------------- what is printed

  lemma PrintedEntry(d: seq<byte>, p: nat, end: nat, s: Stream)
    requires Sound(s) && PlacedAt(d, p, EntryBytes(s)) && p + |EntryBytes(s)| <= end
    ensures StreamLoop(d, p, end) == [Entry(s.kind, s.pid)] + StreamLoop(d, p + |EntryBytes(s)|, end)
  {
    hide EntryBytes, PlacedAt, ClassOf, High5, Low8, Pid, Length12;
    var e := EntryBytes(s);
    EntryFront(s);
    PlacedByte(d, p, e, 0);
    PlacedByte(d, p, e, 1);
    PlacedByte(d, p, e, 2);
    PlacedByte(d, p, e, 3);
    PlacedByte(d, p, e, 4);
    PlacedEnd(d, p, e);
    PidReadBack(e[1], s.pid);
    assert Pid(d[p + 1], d[p + 2]) == s.pid && Length12(d[p + 3], d[p + 4]) == |e| - 5;
  }

  lemma {:induction false} PrintedEntries(d: seq<byte>, p: nat, ss: seq<Stream>)
    requires (forall i :: 0 <= i < |ss| ==> Sound(ss[i])) && PlacedAt(d, p, Entries(ss))
    ensures StreamLoop(d, p, p + |Entries(ss)|) == EntriesOf(ss)
    decreases |ss|
  {
    hide EntryBytes, Sound, PlacedAt, StreamLoop;
    if ss == [] {
      LoopStops(d, p);
    } else {
      var e, rest := EntryBytes(ss[0]), Entries(ss[1..]);
      assert Entries(ss) == e + rest;
      PlacedSum(d, p, e, rest);
      PrintedEntry(d, p, p + |Entries(ss)|, ss[0]);
      PrintedEntries(d, p + |e|, ss[1..]);
    }
  }

  lemma LoopStops(d: seq<byte>, p: nat)
    ensures StreamLoop(d, p, p) == []
  {
  }

  /** A receiver of a printed table sees the streams of the listing, whatever their names. */
  lemma SectionEntries(d: seq<byte>, t: nat, h: Header, l: Listing)
    requires FieldsInRange(h) && SoundListing(l) && SectionLength(l) < 4096
    requires t + 17 <= |d| && PlacedAt(d, t + 5, Section(h, l))
    ensures TableEntries(d, t) == EntriesOf(l.video) + EntriesOf(l.audio) + EntriesOf(l.data)
  {
    hide SectionFront, PlacedAt, Entries, Descriptor, HeaderReads, FieldsInRange, StreamLoop, EntriesOf, Sound;
    hide SoundListing;
    var front, last := SectionFront(h, SectionLength(l)), Entries(All(l));
    PlacedSum(d, t + 5, front + Descriptor(h.cci), last);
    PlacedSum(d, t + 5, front, Descriptor(h.cci));
    HeaderReadBack(d, t, h, SectionLength(l));
    AllSound(l);
    PrintedEntries(d, t + 23, All(l));
    EntriesOfAppend(l.video + l.audio, l.data);
    EntriesOfAppend(l.video, l.audio);
  }

  // ------------------------------------------------------------ nothing is lost

  /** Every entry is of one class. */
  lemma {:induction false} SplitByClass(es: seq<Entry>)
    ensures multiset(es) == multiset(OfClass(es, Video)) + multiset(OfClass(es, Audio)) + multiset(OfClass(es, Data)) +
                            multiset(OfClass(es, Ignored))
    decreases |es|
  {
    if es != [] {
      SplitByClass(es[1..]);
      FirstCounts(es, Video);
      FirstCounts(es, Audio);
      FirstCounts(es, Data);
      FirstCounts(es, Ignored);
      hide ClassOf, OfClass;
      var rest := es[1..];
      var v, a, d := multiset(OfClass(rest, Video)), multiset(OfClass(rest, Audio)), multiset(OfClass(rest, Data));
      OneMore(es[0], v, a, d, multiset(OfClass(rest, Ignored)));
      HeadCounts(es);
    }
  }

  lemma HeadCounts(es: seq<Entry>)
    requires es != []
    ensures multiset(es) == multiset{es[0]} + multiset(es[1..])
  {
    assert es == [es[0]] + es[1..];
  }

  lemma OneMore(e: Entry, v: multiset<Entry>, a: multiset<Entry>, d: multiset<Entry>, i: multiset<Entry>)
    ensures multiset{e} + (v + a + d + i) == (multiset{e} + v) + (multiset{} + a) + (multiset{} + d) + (multiset{} + i)
    ensures multiset{e} + (v + a + d + i) == (multiset{} + v) + (multiset{e} + a) + (multiset{} + d) + (multiset{} + i)
    ensures multiset{e} + (v + a + d + i) == (multiset{} + v) + (multiset{} + a) + (multiset{e} + d) + (multiset{} + i)
    ensures multiset{e} + (v + a + d + i) == (multiset{} + v) + (multiset{} + a) + (multiset{} + d) + (multiset{e} + i)
  {
  }

  lemma FirstCounts(es: seq<Entry>, c: Class)
    requires es != []
    ensures multiset(OfClass(es, c)) ==
      (if ClassOf(es[0].kind) == c then multiset{es[0]} else multiset{}) + multiset(OfClass(es[1..], c))
  {
    hide ClassOf;
  }

  ghost predicate Supported(es: seq<Entry>) { forall i :: 0 <= i < |es| ==> !ClassOf(es[i].kind).Ignored? }

  lemma {:induction false} IgnoredExactly(es: seq<Entry>)
    ensures OfClass(es, Ignored) == [] <==> Supported(es)
    decreases |es|
  {
    hide ClassOf;
    if es != [] {
      IgnoredExactly(es[1..]);
      if Supported(es) {
        assert forall i :: 0 <= i < |es[1..]| ==> es[1..][i] == es[i + 1];
      } else {
        var i :| 0 <= i < |es| && ClassOf(es[i].kind).Ignored?;
        assert i > 0 ==> es[1..][i - 1] == es[i];
      }
    }
  }

  /** The three classes that are printed, one behind the other. */
  function Grouped(es: seq<Entry>): seq<Entry> { OfClass(es, Video) + OfClass(es, Audio) + OfClass(es, Data) }

  lemma GroupedKeepsExactly(es: seq<Entry>)
    ensures multiset(Grouped(es)) == multiset(es) <==> Supported(es)
  {
    hide OfClass, Supported;
    SplitByClass(es);
    IgnoredExactly(es);
    var v, a, d, i := OfClass(es, Video), OfClass(es, Audio), OfClass(es, Data), OfClass(es, Ignored);
    assert multiset(v + a + d) == multiset(v) + multiset(a) + multiset(d);
    assert |multiset(es)| == |multiset(v + a + d)| + |multiset(i)|;
    if i == [] {
      assert multiset(i) == multiset{};
    }
  }

  // ----------------------------------------------------------------- theorem

  lemma SentEntries(tr: Tracker, d: seq<byte>, ts: packetsize, cci: byte, l: Listing)
    requires Consistent(tr, ts) && ts <= |d| && NewTable(tr, d, ts, l)
    ensures var r := Examine(tr, d, ts, cci);
      r.Sent? && |r.packet| == ts && TableEntries(r.packet, Stamp(ts)) == Grouped(TableEntries(d, Stamp(ts)))
  {
    hide Printed, OnePacket, Pid, PayloadStart, High5, Low8, CacheMatches, Examine, PlacedAt, TableEntries, EntriesOf;
    hide ParseListing, TakesPmt, Section, SoundListing, FieldsInRange, Version, OfClass, Entries;
    NewTableSent(tr, d, ts, cci, l);
    HeaderInRange(tr, d, ts, cci);
    ListingIsSound(d, ts, l);
    ListedEntries(d, Stamp(ts), l);
    var h, p := HeaderOf(tr, d, Stamp(ts), cci), Examine(tr, d, ts, cci).packet;
    PrintedSection(ts, h, l, p);
    SectionEntries(p, Stamp(ts), h, l);
  }

  /** Rewriting keeps a new table's program, version and clock PID. Of its streams it keeps those of the supported
      types, video first, then audio, then data, each in their order: so all of them, each once, if and only if no
      stream is of another type. The element's own parser finds the same lists in both tables, with the languages,
      exactly if no language descriptor holds 31 bytes before a zero. */
  lemma RewritingKeepsMeaning(tr: Tracker, d: seq<byte>, ts: packetsize, cci: byte, l: Listing)
    requires Consistent(tr, ts) && ts <= |d| && NewTable(tr, d, ts, l)
    ensures var t, h, r := Stamp(ts), HeaderOf(tr, d, Stamp(ts), cci), Examine(tr, d, ts, cci);
      && r.Sent? && |r.packet| == ts && HeaderReads(r.packet, t, h) && Program16(d[t + 8], d[t + 9]) == h.program
      && TableEntries(r.packet, t) == Grouped(TableEntries(d, t))
      && (multiset(TableEntries(r.packet, t)) == multiset(TableEntries(d, t)) <==> Supported(TableEntries(d, t)))
      && (ParseListing(r.packet, t) == ParseListing(d, t) <==> !LongName(l))
  {
    hide NewTable, Consistent, Examine, HeaderReads, TableEntries, Grouped, Supported, ParseListing, HeaderOf, LongName;
    RewritingKeepsListings(tr, d, ts, cci, l);
    SentEntries(tr, d, ts, cci, l);
    GroupedKeepsExactly(TableEntries(d, Stamp(ts)));
  }
}
