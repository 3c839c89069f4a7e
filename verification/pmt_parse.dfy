/** The program map table as dtcpencrypt parses it, and that it reads back what it prints. */
module PmtParse {
  import opened Bytes
  import opened Psi
  import opened PmtPrint

  const MAX_PIDS: nat := 8

  datatype Class = Video | Audio | Data | Ignored

  /** The switch on the stream type. */
  function ClassOf(kind: byte): Class {
    if kind == 0x02 || kind == 0x80 then Video
    else if kind in {0x03, 0x04, 0x0f, 0x11, 0x81, 0x82, 0x83, 0x84, 0x86, 0x87, 0x8a, 0x91, 0x94} then Audio
    else if kind == 0x06 || kind >= 0x80 then Data
    else Ignored
  }

  /** Rejected: the function gives up. Undefined: it would read or write outside the memory it may use. */
  datatype Walked = Name(name: seq<byte>) | NameRejected | NameUndefined

  datatype Parsed = Parsed(listing: Listing) | Rejected | Undefined

  /** What strdup keeps of a zero-terminated copy. */
  function UpToNul(s: seq<byte>): (r: seq<byte>)
    ensures |r| <= |s| && 0 !in r
    ensures 0 !in s ==> r == s
  {
    if s == [] || s[0] == 0 then [] else [s[0]] + UpToNul(s[1..])
  }

  /** The descriptors of one audio stream, from i up to the first index not below max. */
  function Walk(d: seq<byte>, i: nat, max: nat, name: seq<byte>): Walked
    decreases max - i
  {
    if i >= max then Name(name)
    else if i + 1 >= |d| then NameUndefined
    else
      var length := d[i + 1];
      if d[i] != 0x0a then Walk(d, i + 2 + length, max, name)
      else if length > 32 then NameRejected
      else if length == 32 || i + 2 + length > |d| then NameUndefined
      else Walk(d, i + 2 + length, max, UpToNul(d[i + 2..i + 2 + length]))
  }

  function NameOf(d: seq<byte>, p: nat, length: nat): Walked {
    if length > 2 then Walk(d, p, p + length, []) else Name([])
  }

  function Empty(): Listing { Listing([], [], []) }

  /** The stream goes to the back of the list of its class. */
  function Add(l: Listing, s: Stream): Listing {
    match ClassOf(s.kind)
    case Video => l.(video := l.video + [s])
    case Audio => l.(audio := l.audio + [s])
    case Data => l.(data := l.data + [s])
    case Ignored => l
  }

  function CountOf(l: Listing, c: Class): nat {
    match c
    case Video => |l.video|
    case Audio => |l.audio|
    case Data => |l.data|
    case Ignored => 0
  }

  /** The loop over the streams, from index p up to the first not below end. */
  function ParseStreams(d: seq<byte>, p: nat, end: int, l: Listing): Parsed
    decreases end - p
  {
    if p >= end then Parsed(l)
    else if p + 5 > |d| then Undefined
    else
      var pid, length, c := Pid(d[p + 1], d[p + 2]), Length12(d[p + 3], d[p + 4]), ClassOf(d[p]);
      if CountOf(l, c) >= MAX_PIDS then Undefined
      else
        match (if c.Audio? then NameOf(d, p + 5, length) else Name([]))
        case Name(name) => ParseStreams(d, p + 5 + length, end, Add(l, Stream(d[p], pid, name)))
        case NameRejected => Rejected
        case NameUndefined => Undefined
  }

  /** The section length, behind a stamp of t bytes. */
  function LengthField(d: seq<byte>, t: nat): nat
    requires t + 17 <= |d|
  {
    Length12(d[t + 6], d[t + 7])
  }

  /** d holds everything from the packet to the end of the buffer. */
  function ParseListing(d: seq<byte>, t: nat): Parsed
    requires t + 17 <= |d|
  {
    ParseStreams(d, Length12(d[t + 15], d[t + 16]) + 17 + t, t + 8 + LengthField(d, t) - 4, Empty())
  }

  /** The guard that keeps multi-packet tables out. */
  predicate OnePacket(d: seq<byte>, ts: packetsize)
    requires ts <= |d|
  {
    LengthField(d, Stamp(ts)) < ts - 5 - 12 - 4 - Stamp(ts)
  }

  // ------------------------------------------------------- what can be parsed

  lemma {:induction false} WalkedName(d: seq<byte>, i: nat, max: nat, name: seq<byte>)
    requires |name| < 32 && 0 !in name && Walk(d, i, max, name).Name?
    ensures |Walk(d, i, max, name).name| < 32 && 0 !in Walk(d, i, max, name).name
    decreases max - i
  {
    if i < max {
      var length := d[i + 1];
      WalkedName(d, i + 2 + length, max, if d[i] == 0x0a then UpToNul(d[i + 2..i + 2 + length]) else name);
    }
  }

  lemma AddedIsSound(l: Listing, s: Stream)
    requires SoundListing(l) && Sound(s) && CountOf(l, ClassOf(s.kind)) < MAX_PIDS
    ensures SoundListing(Add(l, s))
  {
    hide ClassOf, Sound;
  }

  /** At most eight streams a class, each in its class, PIDs of thirteen bits, names of at most 31 bytes, none zero. */
  lemma {:induction false} ParsedIsSound(d: seq<byte>, p: nat, end: int, l: Listing)
    requires SoundListing(l) && ParseStreams(d, p, end, l).Parsed?
    ensures SoundListing(ParseStreams(d, p, end, l).listing)
    decreases end - p
  {
    hide Add, SoundListing, CountOf, ClassOf, Walk;
    if p < end {
      var pid, length, c := Pid(d[p + 1], d[p + 2]), Length12(d[p + 3], d[p + 4]), ClassOf(d[p]);
      if c.Audio? && length > 2 {
        WalkedName(d, p + 5, p + 5 + length, []);
      }
      var named := if c.Audio? then NameOf(d, p + 5, length) else Name([]);
      var s := Stream(d[p], pid, named.name);
      AddedIsSound(l, s);
      ParsedIsSound(d, p + 5 + length, end, Add(l, s));
    }
  }

  lemma SoundIsBounded(l: Listing)
    requires SoundListing(l)
    ensures Bounded(l)
  {
  }

  // ------------------------------------------------------------- reading back

  /** A stream as the parser makes it. */
  predicate Sound(s: Stream) {
    s.pid < 8192 && |s.name| < 32 && 0 !in s.name && (s.name != [] ==> ClassOf(s.kind).Audio?)
  }

  ghost predicate SoundStreams(ss: seq<Stream>, c: Class) {
    |ss| <= MAX_PIDS && forall i :: 0 <= i < |ss| ==> Sound(ss[i]) && ClassOf(ss[i].kind) == c
  }

  ghost predicate SoundListing(l: Listing) {
    SoundStreams(l.video, Video) && SoundStreams(l.audio, Audio) && SoundStreams(l.data, Data)
  }

  /** A stream that is parsed again once printed: the descriptor adds a byte to the name. */
  predicate Canonical(s: Stream) { Sound(s) && |s.name| <= 30 }

  ghost predicate CanonicalListing(l: Listing) {
    SoundListing(l) && forall i :: 0 <= i < |l.audio| ==> |l.audio[i].name| <= 30
  }

  lemma AllCanonical(l: Listing)
    requires CanonicalListing(l)
    ensures forall i :: 0 <= i < |All(l)| ==> Canonical(All(l)[i])
  {
    hide ClassOf;
    AllSound(l);
    forall i | 0 <= i < |All(l)| ensures Canonical(All(l)[i]) {
      if |l.video| <= i < |l.video| + |l.audio| {
        assert All(l)[i] == l.audio[i - |l.video|];
      } else if i < |l.video| {
        assert All(l)[i] == l.video[i];
      } else {
        assert All(l)[i] == l.data[i - |l.video| - |l.audio|];
      }
    }
  }

  function AddAll(l: Listing, ss: seq<Stream>): Listing
    decreases |ss|
  {
    if ss == [] then l else AddAll(Add(l, ss[0]), ss[1..])
  }

  lemma {:induction false} UpToNulStops(name: seq<byte>)
    requires 0 !in name
    ensures UpToNul(name + [0]) == name
  {
    if name == [] {
    } else {
      assert (name + [0])[1..] == name[1..] + [0];
      UpToNulStops(name[1..]);
    }
  }

  lemma EntryFront(s: Stream)
    requires Sound(s)
    ensures var e := EntryBytes(s); e[0] == s.kind && e[1] % 32 == High5(s.pid) && e[2] == Low8(s.pid)
    ensures var e := EntryBytes(s); Length12(e[3], e[4]) == |e| - 5
  {
    hide High5, Low8, ClassOf;
    ReservedPid(s.pid);
    SmallLength(|s.name|);
  }

  lemma ReservedPid(pid: nat)
    ensures 0 <= 0xe0 + High5(pid) < 256 && (0xe0 + High5(pid)) % 32 == High5(pid)
  {
  }

  lemma SmallLength(n: nat)
    requires n <= 31
    ensures Length12(0xf0, 0) == 0 && Low8(3 + n) == 3 + n && Low8(1 + n) == 1 + n && Length12(0xf0, Low8(3 + n)) == 3 + n
  {
  }

  lemma EntryName(s: Stream)
    requires Canonical(s) && s.name != []
    ensures var e, n := EntryBytes(s), |s.name|; e[5] == 0x0a && e[6] == 1 + n && e[7..] == s.name + [0]
  {
    hide High5, ClassOf;
  }

  predicate PlacedAt(d: seq<byte>, p: nat, part: seq<byte>) {
    p + |part| <= |d| && d[p..p + |part|] == part
  }

  lemma PlacedByte(d: seq<byte>, p: nat, part: seq<byte>, k: nat)
    requires PlacedAt(d, p, part) && k < |part|
    ensures d[p + k] == part[k]
  {
    assert d[p..p + |part|][k] == d[p + k];
  }

  lemma PlacedPart(d: seq<byte>, p: nat, part: seq<byte>, i: nat, j: nat)
    requires PlacedAt(d, p, part) && i <= j <= |part|
    ensures d[p + i..p + j] == part[i..j]
  {
    forall k | 0 <= k < j - i ensures d[p + i..p + j][k] == part[i..j][k] {
      PlacedByte(d, p, part, i + k);
    }
  }

  lemma WalkOne(d: seq<byte>, q: nat, name: seq<byte>)
    requires |name| <= 30 && 0 !in name && q + 3 + |name| <= |d|
    requires d[q] == 0x0a && d[q + 1] == 1 + |name| && d[q + 2..q + 3 + |name|] == name + [0]
    ensures Walk(d, q, q + 3 + |name|, []) == Name(name)
  {
    UpToNulStops(name);
    var max := q + 3 + |name|;
    assert Walk(d, max, max, name) == Name(name);
  }

  /** The printed language descriptor gives the name back. */
  lemma NameReadBack(d: seq<byte>, p: nat, s: Stream)
    requires Canonical(s) && PlacedAt(d, p, EntryBytes(s))
    ensures NameOf(d, p + 5, |EntryBytes(s)| - 5) == Name(s.name)
  {
    hide EntryBytes, PlacedAt, Walk;
    if s.name != [] {
      EntryName(s);
      var e := EntryBytes(s);
      PlacedByte(d, p, e, 5);
      PlacedByte(d, p, e, 6);
      PlacedPart(d, p, e, 7, |e|);
      PlacedEnd(d, p, e);
      assert e[7..|e|] == e[7..];
      WalkOne(d, p + 5, s.name);
    }
  }

  lemma PlacedEnd(d: seq<byte>, p: nat, part: seq<byte>)
    requires PlacedAt(d, p, part)
    ensures p + |part| <= |d|
  {
  }

  lemma EntryReadBack(d: seq<byte>, p: nat, end: nat, l: Listing, s: Stream)
    requires Canonical(s) && CountOf(l, ClassOf(s.kind)) < MAX_PIDS
    requires PlacedAt(d, p, EntryBytes(s)) && p + |EntryBytes(s)| <= end
    ensures ParseStreams(d, p, end, l) == ParseStreams(d, p + |EntryBytes(s)|, end, Add(l, s))
  {
    hide EntryBytes, PlacedAt, Walk, ClassOf, Add, CountOf, High5, Low8, Pid, Length12;
    var e := EntryBytes(s);
    EntryFront(s);
    PlacedByte(d, p, e, 0);
    PlacedByte(d, p, e, 1);
    PlacedByte(d, p, e, 2);
    PlacedByte(d, p, e, 3);
    PlacedByte(d, p, e, 4);
    PlacedEnd(d, p, e);
    PidReadBack(e[1], s.pid);
    NameReadBack(d, p, s);
    assert Pid(d[p + 1], d[p + 2]) == s.pid && Length12(d[p + 3], d[p + 4]) == |e| - 5;
    assert !ClassOf(s.kind).Audio? ==> s.name == [];
  }

  predicate RoomFor(l: Listing, ss: seq<Stream>)
    decreases |ss|
  {
    ss == [] || (CountOf(l, ClassOf(ss[0].kind)) < MAX_PIDS && RoomFor(Add(l, ss[0]), ss[1..]))
  }

  lemma {:induction false} EntriesReadBack(d: seq<byte>, p: nat, l: Listing, ss: seq<Stream>)
    requires forall i :: 0 <= i < |ss| ==> Canonical(ss[i])
    requires RoomFor(l, ss) && PlacedAt(d, p, Entries(ss))
    ensures ParseStreams(d, p, p + |Entries(ss)|, l) == Parsed(AddAll(l, ss))
    decreases |ss|
  {
    hide EntryBytes, Canonical, Add, CountOf, ClassOf, PlacedAt, ParseStreams;
    if ss == [] {
      ParseStop(d, p, l);
    } else {
      var e, rest, end := EntryBytes(ss[0]), Entries(ss[1..]), p + |Entries(ss)|;
      assert Entries(ss) == e + rest;
      PlacedSum(d, p, e, rest);
      EntryReadBack(d, p, end, l, ss[0]);
      EntriesReadBack(d, p + |e|, Add(l, ss[0]), ss[1..]);
    }
  }

  lemma ParseStop(d: seq<byte>, p: nat, l: Listing)
    ensures ParseStreams(d, p, p, l) == Parsed(l)
  {
  }

  lemma PlacedSum(d: seq<byte>, p: nat, a: seq<byte>, b: seq<byte>)
    requires PlacedAt(d, p, a + b)
    ensures PlacedAt(d, p, a) && PlacedAt(d, p + |a|, b)
  {
    PlacedPart(d, p, a + b, 0, |a|);
    PlacedPart(d, p, a + b, |a|, |a + b|);
  }

  ghost predicate InClass(ss: seq<Stream>, c: Class) {
    |ss| <= MAX_PIDS && forall i :: 0 <= i < |ss| ==> ClassOf(ss[i].kind) == c
  }

  lemma {:induction false} AddVideo(l: Listing, ss: seq<Stream>, rest: seq<Stream>)
    requires InClass(ss, Video)
    requires |l.video| + |ss| <= MAX_PIDS && RoomFor(l.(video := l.video + ss), rest)
    ensures AddAll(l, ss + rest) == AddAll(l.(video := l.video + ss), rest) && RoomFor(l, ss + rest)
    decreases |ss|
  {
    if ss == [] {
      assert ss + rest == rest && l.(video := l.video + ss) == l;
    } else {
      assert (ss + rest)[1..] == ss[1..] + rest;
      assert (l.video + [ss[0]]) + ss[1..] == l.video + ss;
      AddVideo(Add(l, ss[0]), ss[1..], rest);
    }
  }

  lemma {:induction false} AddAudio(l: Listing, ss: seq<Stream>, rest: seq<Stream>)
    requires InClass(ss, Audio)
    requires |l.audio| + |ss| <= MAX_PIDS && RoomFor(l.(audio := l.audio + ss), rest)
    ensures AddAll(l, ss + rest) == AddAll(l.(audio := l.audio + ss), rest) && RoomFor(l, ss + rest)
    decreases |ss|
  {
    if ss == [] {
      assert ss + rest == rest && l.(audio := l.audio + ss) == l;
    } else {
      assert (ss + rest)[1..] == ss[1..] + rest;
      assert (l.audio + [ss[0]]) + ss[1..] == l.audio + ss;
      AddAudio(Add(l, ss[0]), ss[1..], rest);
    }
  }

  lemma {:induction false} AddData(l: Listing, ss: seq<Stream>)
    requires InClass(ss, Data)
    requires |l.data| + |ss| <= MAX_PIDS
    ensures AddAll(l, ss) == l.(data := l.data + ss) && RoomFor(l, ss)
    decreases |ss|
  {
    if ss == [] {
      assert l.(data := l.data + ss) == l;
    } else {
      assert (l.data + [ss[0]]) + ss[1..] == l.data + ss;
      AddData(Add(l, ss[0]), ss[1..]);
    }
  }

  /** Parsing the three lists one after the other sorts each stream back into its own. */
  lemma AddsUp(l: Listing)
    requires InClass(l.video, Video) && InClass(l.audio, Audio) && InClass(l.data, Data)
    ensures AddAll(Empty(), All(l)) == l && RoomFor(Empty(), All(l))
  {
    hide ClassOf, Add, AddAll, RoomFor, CountOf;
    var l1 := Listing(l.video, [], []);
    var l2 := Listing(l.video, l.audio, []);
    InClassFew(l.video, Video);
    InClassFew(l.audio, Audio);
    InClassFew(l.data, Data);
    hide InClass;
    AddData(l2, l.data);
    AddAudio(l1, l.audio, l.data);
    AddVideo(Empty(), l.video, l.audio + l.data);
    Associates(l.video, l.audio, l.data);
  }

  lemma InClassFew(ss: seq<Stream>, c: Class)
    requires InClass(ss, c)
    ensures |ss| <= MAX_PIDS && [] + ss == ss
  {
  }

  lemma SoundClasses(l: Listing)
    requires SoundListing(l)
    ensures InClass(l.video, Video) && InClass(l.audio, Audio) && InClass(l.data, Data)
  {
    hide ClassOf, Sound;
  }

  // ---------------------------------------------------------- the whole table

  function Program16(hi: byte, lo: byte): nat { hi * 256 + lo }

  /** The fields of a table whose section starts behind t + 5 bytes, as examine_buffer reads them. */
  predicate HeaderReads(d: seq<byte>, t: nat, h: Header)
    requires t + 17 <= |d|
  {
    && d[t + 5] == 0x02
    && Program16(d[t + 8], d[t + 9]) == h.program
    && d[t + 10] % 2 == 1 && Version(d[t + 10]) == h.version
    && Pid(d[t + 13], d[t + 14]) == h.pcrPid
  }

  predicate FieldsInRange(h: Header) {
    h.pmtPid < 8192 && h.program < 65536 && h.version < 32 && h.pcrPid < 8192
  }

  lemma FrontReads(h: Header, length: nat)
    requires FieldsInRange(h) && length < 4096
    ensures var f := SectionFront(h, length); f[0] == 0x02 && Program16(f[3], f[4]) == h.program
    ensures var f := SectionFront(h, length); f[5] % 2 == 1 && Version(f[5]) == h.version
    ensures var f := SectionFront(h, length); f[8] % 32 == High5(h.pcrPid) && f[9] == Low8(h.pcrPid)
    ensures var f := SectionFront(h, length); Length12(f[1], f[2]) == length && Length12(f[10], f[11]) == 6
  {
    ProgramReadBack(h.program);
    LengthReadBack(length);
    VersionReadBack(h.version);
  }

  lemma ProgramReadBack(x: nat)
    requires x < 65536
    ensures Program16(High8(x), Low8(x)) == x
  {
    assert x / 256 % 256 == x / 256;
  }

  lemma LengthReadBack(x: nat)
    requires x < 4096
    ensures Length12(0xb0 + x / 256 % 16, Low8(x)) == x
  {
    assert x / 256 % 16 == x / 256;
  }

  lemma VersionReadBack(v: nat)
    requires v < 32
    ensures 0 <= 0xc1 + 2 * (v % 32) < 256
    ensures (0xc1 + 2 * (v % 32)) % 2 == 1 && Version(0xc1 + 2 * (v % 32)) == v
  {
  }

  /** The first twelve bytes of the section give every field back. */
  lemma HeaderReadBack(d: seq<byte>, t: nat, h: Header, length: nat)
    requires FieldsInRange(h) && length < 4096 && t + 17 <= |d|
    requires PlacedAt(d, t + 5, SectionFront(h, length))
    ensures HeaderReads(d, t, h)
    ensures LengthField(d, t) == length && Length12(d[t + 15], d[t + 16]) == 6
  {
    hide SectionFront, PlacedAt, Program16, Version, Pid, Length12, High5, Low8, FieldsInRange;
    var f := SectionFront(h, length);
    FrontReads(h, length);
    forall k | 0 <= k < 12 ensures d[t + 5 + k] == f[k] {
      PlacedByte(d, t + 5, f, k);
    }
    assert d[t + 5 + 0] == f[0] && d[t + 5 + 1] == f[1] && d[t + 5 + 2] == f[2] && d[t + 5 + 3] == f[3];
    assert d[t + 5 + 4] == f[4] && d[t + 5 + 5] == f[5] && d[t + 5 + 8] == f[8] && d[t + 5 + 9] == f[9];
    assert d[t + 5 + 10] == f[10] && d[t + 5 + 11] == f[11];
    SmallPcr(h);
    PidReadBack(f[8], h.pcrPid);
  }

  lemma SmallPcr(h: Header)
    requires FieldsInRange(h)
    ensures h.pcrPid < 8192
  {
  }

  /** What is printed is read back: every field, and every stream of every class in order. */
  lemma TableReadBack(d: seq<byte>, ts: packetsize, h: Header, l: Listing)
    requires FieldsInRange(h) && CanonicalListing(l) && Fits(ts, l)
    requires ts <= |d| && PlacedAt(d, Stamp(ts) + 5, Section(h, l))
    ensures HeaderReads(d, Stamp(ts), h) && ParseListing(d, Stamp(ts)) == Parsed(l)
    ensures OnePacket(d, ts) <==> Size(ts, l) <= ts - 14
  {
    hide SectionFront, PlacedAt, Entries, Descriptor, HeaderReads, FieldsInRange, ParseStreams, AddAll, RoomFor;
    hide Canonical, ClassOf;
    var t := Stamp(ts);
    var front, last := SectionFront(h, SectionLength(l)), Entries(All(l));
    PlacedSum(d, t + 5, front + Descriptor(h.cci), last);
    PlacedSum(d, t + 5, front, Descriptor(h.cci));
    HeaderReadBack(d, t, h, SectionLength(l));
    SoundClasses(l);
    AddsUp(l);
    AllCanonical(l);
    EntriesReadBack(d, t + 23, Empty(), All(l));
  }

  // ------------------------------------------------------- names of 31 bytes

  ghost predicate LongName(l: Listing) { exists i: nat :: i < |l.audio| && |l.audio[i].name| > 30 }

  /** A name of 31 bytes makes a descriptor of 32, which the copy in the parser has no room for. */
  lemma LongNameFront(s: Stream)
    requires Sound(s) && |s.name| == 31
    ensures var e := EntryBytes(s); e[0] == s.kind && Length12(e[3], e[4]) == 34 && e[5] == 0x0a && e[6] == 32
  {
  }

  lemma LongNameUndefined(d: seq<byte>, p: nat, end: nat, l: Listing, s: Stream)
    requires Sound(s) && |s.name| == 31 && p < end && PlacedAt(d, p, EntryBytes(s))
    ensures ParseStreams(d, p, end, l) == Undefined
  {
    hide EntryBytes, PlacedAt, ClassOf, Add, CountOf, Length12;
    var e := EntryBytes(s);
    LongNameFront(s);
    PlacedByte(d, p, e, 0);
    PlacedByte(d, p, e, 3);
    PlacedByte(d, p, e, 4);
    PlacedByte(d, p, e, 5);
    PlacedByte(d, p, e, 6);
    PlacedEnd(d, p, e);
    assert ClassOf(d[p]).Audio?;
    assert Walk(d, p + 5, p + 5 + 34, []) == NameUndefined;
  }

  lemma {:induction false} LongNameSpoils(d: seq<byte>, p: nat, l: Listing, ss: seq<Stream>, k: nat)
    requires k < |ss| && |ss[k].name| == 31 && (forall i :: 0 <= i < |ss| ==> Sound(ss[i]))
    requires RoomFor(l, ss) && PlacedAt(d, p, Entries(ss))
    ensures ParseStreams(d, p, p + |Entries(ss)|, l) == Undefined
    decreases |ss|
  {
    hide EntryBytes, Add, CountOf, ClassOf, PlacedAt, ParseStreams;
    var e, rest, end := EntryBytes(ss[0]), Entries(ss[1..]), p + |Entries(ss)|;
    assert Entries(ss) == e + rest;
    PlacedSum(d, p, e, rest);
    if |ss[0].name| == 31 {
      LongNameUndefined(d, p, end, l, ss[0]);
    } else {
      EntryReadBack(d, p, end, l, ss[0]);
      LongNameSpoils(d, p + |e|, Add(l, ss[0]), ss[1..], k - 1);
    }
  }

  lemma AllSound(l: Listing)
    requires SoundListing(l)
    ensures forall i :: 0 <= i < |All(l)| ==> Sound(All(l)[i])
  {
    hide ClassOf, Sound;
    forall i | 0 <= i < |All(l)| ensures Sound(All(l)[i]) {
      if i < |l.video| {
        assert All(l)[i] == l.video[i];
      } else if i < |l.video| + |l.audio| {
        assert All(l)[i] == l.audio[i - |l.video|];
      } else {
        assert All(l)[i] == l.data[i - |l.video| - |l.audio|];
      }
    }
  }

  /** Of the listings the parser makes, exactly those without a name of 31 bytes survive printing and parsing again. */
  lemma ReadsBackExactly(d: seq<byte>, ts: packetsize, h: Header, l: Listing)
    requires FieldsInRange(h) && SoundListing(l) && Fits(ts, l)
    requires ts <= |d| && PlacedAt(d, Stamp(ts) + 5, Section(h, l))
    ensures ParseListing(d, Stamp(ts)) == if LongName(l) then Undefined else Parsed(l)
  {
    hide SectionFront, PlacedAt, Entries, Descriptor, HeaderReads, FieldsInRange, ParseStreams, AddAll, RoomFor;
    hide Sound, ClassOf;
    if !LongName(l) {
      TableReadBack(d, ts, h, l);
    } else {
      var i: nat :| i < |l.audio| && |l.audio[i].name| > 30;
      NameAtMost31(l.audio[i]);
      var t := Stamp(ts);
      var front, last := SectionFront(h, SectionLength(l)), Entries(All(l));
      PlacedSum(d, t + 5, front + Descriptor(h.cci), last);
      PlacedSum(d, t + 5, front, Descriptor(h.cci));
      HeaderReadBack(d, t, h, SectionLength(l));
      SoundClasses(l);
      AddsUp(l);
      AllSound(l);
      assert All(l)[|l.video| + i] == l.audio[i];
      LongNameSpoils(d, t + 23, Empty(), All(l), |l.video| + i);
    }
  }

  lemma NameAtMost31(s: Stream)
    requires Sound(s)
    ensures |s.name| <= 31
  {
  }
}
