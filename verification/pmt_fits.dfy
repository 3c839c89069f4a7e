/** When the table dtcpencrypt prints ends in its packet: for every table whose lengths add up. */
module PmtFits {
  import opened Bytes
  import opened Psi
  import opened PmtPrint
  import opened PmtParse
  import opened PsiTracker
  import opened PsiTheorems

  /** The descriptors from index i on end exactly at max. */
  predicate DescriptorsEnd(d: seq<byte>, i: nat, max: nat)
    decreases max - i
  {
    if i >= max then i == max else i + 1 < |d| && DescriptorsEnd(d, i + 2 + d[i + 1], max)
  }

  /** The streams from index p on end exactly at end, and the descriptors of each audio stream with its information. */
  predicate StreamsEnd(d: seq<byte>, p: nat, end: int)
    decreases end - p
  {
    if p >= end then p == end
    else
      && p + 5 <= |d|
      && var length := Length12(d[p + 3], d[p + 4]);
      && (ClassOf(d[p]).Audio? ==> DescriptorsEnd(d, p + 5, p + 5 + length))
      && StreamsEnd(d, p + 5 + length, end)
  }

  predicate WellFormed(d: seq<byte>, t: nat)
    requires t + 17 <= |d|
  {
    StreamsEnd(d, Length12(d[t + 15], d[t + 16]) + 17 + t, t + 8 + LengthField(d, t) - 4)
  }

  lemma {:induction false} EndsNotBefore(d: seq<byte>, i: nat, max: nat)
    requires DescriptorsEnd(d, i, max)
    ensures i <= max
  {
  }

  /** A name is at least two bytes shorter than what it stands in. */
  predicate ShortFor(name: seq<byte>, room: nat) { name == [] || |name| + 2 <= room }

  lemma {:induction false} WalkedShort(d: seq<byte>, i: nat, max: nat, name: seq<byte>, room: nat)
    requires DescriptorsEnd(d, i, max) && max - i <= room && ShortFor(name, room) && Walk(d, i, max, name).Name?
    ensures ShortFor(Walk(d, i, max, name).name, room)
    decreases max - i
  {
    if i < max {
      var length := d[i + 1];
      EndsNotBefore(d, i + 2 + length, max);
      WalkedShort(d, i + 2 + length, max, if d[i] == 0x0a then UpToNul(d[i + 2..i + 2 + length]) else name, room);
    }
  }

  /** Printing adds at most one byte to an audio stream, and none to another. */
  lemma EntryGrows(d: seq<byte>, p: nat, length: nat, s: Stream)
    requires p + 5 <= |d| && (ClassOf(s.kind).Audio? ==> DescriptorsEnd(d, p + 5, p + 5 + length))
    requires if ClassOf(s.kind).Audio? then NameOf(d, p + 5, length) == Name(s.name) else s.name == []
    ensures |EntryBytes(s)| <= 5 + length + (if ClassOf(s.kind).Audio? then 1 else 0)
  {
    hide ClassOf, Walk;
    if ClassOf(s.kind).Audio? && length > 2 {
      WalkedShort(d, p + 5, p + 5 + length, [], length);
    }
  }

  lemma ListsLength(l: Listing)
    ensures |Entries(All(l))| == |Entries(l.video)| + |Entries(l.audio)| + |Entries(l.data)|
  {
    hide Entries;
    EntriesAppend(l.video + l.audio, l.data);
    EntriesAppend(l.video, l.audio);
  }

  lemma AddedLength(l: Listing, s: Stream)
    ensures |Entries(All(Add(l, s)))| <= |Entries(All(l))| + |EntryBytes(s)|
    ensures |Add(l, s).audio| == |l.audio| + (if ClassOf(s.kind).Audio? then 1 else 0)
  {
    hide ClassOf, Entries, EntryBytes, All;
    ListsLength(l);
    ListsLength(Add(l, s));
    EntriesSnoc(l.video, s);
    EntriesSnoc(l.audio, s);
    EntriesSnoc(l.data, s);
  }

  lemma {:induction false} ListingGrows(d: seq<byte>, p: nat, end: int, l: Listing)
    requires StreamsEnd(d, p, end) && ParseStreams(d, p, end, l).Parsed?
    ensures var l' := ParseStreams(d, p, end, l).listing;
      |Entries(All(l'))| <= |Entries(All(l))| + (end - p) + (|l'.audio| - |l.audio|)
    decreases end - p
  {
    hide ClassOf, Entries, EntryBytes, All, Add, CountOf, NameOf, DescriptorsEnd, Pid, Length12;
    if p < end {
      var pid, length := Pid(d[p + 1], d[p + 2]), Length12(d[p + 3], d[p + 4]);
      var named := if ClassOf(d[p]).Audio? then NameOf(d, p + 5, length) else Name([]);
      var s := Stream(d[p], pid, named.name);
      EntryGrows(d, p, length, s);
      AddedLength(l, s);
      ListingGrows(d, p + 5 + length, end, Add(l, s));
    }
  }

  /** The test for a single packet leaves room for what printing adds: every table whose stream loop ends with its
      section, and whose audio descriptors end with their streams, is printed within one packet. */
  lemma WellFormedFits(d: seq<byte>, ts: packetsize, l: Listing)
    requires ts <= |d| && OnePacket(d, ts) && WellFormed(d, Stamp(ts)) && ParseListing(d, Stamp(ts)) == Parsed(l)
    ensures Fits(ts, l)
  {
    hide ParseStreams, StreamsEnd, Entries, SoundListing, All;
    var t := Stamp(ts);
    ListingIsSound(d, ts, l);
    FewAudio(l);
    ListingGrows(d, Length12(d[t + 15], d[t + 16]) + 17 + t, t + 8 + LengthField(d, t) - 4, Empty());
    NoEntries();
  }

  lemma FewAudio(l: Listing)
    requires SoundListing(l)
    ensures |l.audio| <= MAX_PIDS
  {
  }

  lemma NoEntries()
    ensures |Entries(All(Empty()))| == 0
  {
  }

  /** So for a well-formed table that is parsed and small enough, nothing more is needed to be rewritten. */
  lemma WellFormedIsNew(tr: Tracker, d: seq<byte>, ts: packetsize, l: Listing)
    requires ts <= |d| && tr.pat.pmtPid > 0 && PidOf(d, Stamp(ts)) == tr.pat.pmtPid && PayloadStart(d[Stamp(ts) + 1])
    requires TakesPmt(tr, d, Stamp(ts)) && OnePacket(d, ts) && WellFormed(d, Stamp(ts))
    requires ParseListing(d, Stamp(ts)) == Parsed(l)
    ensures NewTable(tr, d, ts, l)
  {
    hide TakesPmt, OnePacket, ParseListing, WellFormed, Fits, PayloadStart, Pid;
    WellFormedFits(d, ts, l);
  }
}
