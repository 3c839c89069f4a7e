/**
 The MPEG-2 section CRC, as dtcpencrypt and dtvsource each build it: a table of
 256 words filled by shifting, and a loop that feeds one byte at a time. The
 reference is the shift register of Annex A of ISO/IEC 13818-1.
*/
module Crc {
  import opened Bytes

  type octet = bv8
  type word = bv32

  const POLY: word := 0x04c1_1db7
  const TOP: word := 0x8000_0000
  const PRESET: word := 0xffff_ffff

  // The operations on registers, named so that proofs can leave them alone.

  function Xor(a: word, b: word): word { a ^ b }

  function Double(r: word): word { r << 1 }

  function Up8(r: word): word { r << 8 }

  function Index(r: word, d: octet): word { (r >> 24) ^ (d as word) }

  predicate TopSet(r: word) { r & TOP != 0 }

  /** k turns of shifting left. */
  function Shifted(r: word, k: nat): word {
    if k == 0 then r else Double(Shifted(r, k - 1))
  }

  // ------------------------------------------------- the shift register

  /** What the bit leaving a register feeds back into it. */
  function Feedback(r: word): word { if TopSet(r) then POLY else 0 }

  /** One bit enters the register, carried at the top of x: Annex A's decoder. */
  function BitStep(r: word, x: word): word {
    Xor(Double(r), Feedback(Xor(r, x)))
  }

  /** The k uppermost bits of x enter the register, the top one first. */
  function BitSteps(r: word, x: word, k: nat): word {
    if k == 0 then r else BitStep(BitSteps(r, x, k - 1), Shifted(x, k - 1))
  }

  function AtTop(d: octet): word { (d as word) << 24 }

  /** The eight bits of a byte enter the register, most significant first. */
  function ByteStep(r: word, d: octet): word { BitSteps(r, AtTop(d), 8) }

  /** A register after the bytes of a message. */
  function Register(r: word, data: seq<octet>): word
    decreases |data|
  {
    if data == [] then r else Register(ByteStep(r, data[0]), data[1..])
  }

  // ------------------------------------------------------------ the table

  /** Where the table loop's second variable starts: the index at the top, a sentinel bit below it. */
  function Marked(i: word): word { (i << 24) | 0x80_0000 }

  /** That variable after k turns. */
  function Sentinel(i: word, k: nat): word { Shifted(Marked(i), k) }

  /** The table loop's first variable after k turns: the sentinel's bits have entered an empty register. */
  function TableAfter(i: word, k: nat): word { BitSteps(0, Marked(i), k) }

  function Entry(i: word): word { TableAfter(i, 8) }

  /** One turn of the byte loop. */
  function TableStep(r: word, d: octet): word {
    Xor(Up8(r), Entry(Index(r, d)))
  }

  // Exclusive or on registers.

  lemma XorSelf(a: word)
    ensures Xor(a, a) == 0 && Xor(a, 0) == a && Xor(0, a) == a
  {
  }

  lemma XorComm(a: word, b: word)
    ensures Xor(a, b) == Xor(b, a)
  {
  }

  lemma XorAssoc(a: word, b: word, c: word)
    ensures Xor(Xor(a, b), c) == Xor(a, Xor(b, c))
  {
  }

  lemma XorDouble(a: word, b: word)
    ensures Double(Xor(a, b)) == Xor(Double(a), Double(b))
  {
  }

  lemma XorSwap(a: word, b: word, c: word, d: word)
    ensures Xor(Xor(a, b), Xor(c, d)) == Xor(Xor(a, c), Xor(b, d))
  {
    calc {
      Xor(Xor(a, b), Xor(c, d));
      { XorAssoc(a, b, Xor(c, d)); }
      Xor(a, Xor(b, Xor(c, d)));
      { XorAssoc(b, c, d); XorComm(b, c); XorAssoc(c, b, d); }
      Xor(a, Xor(c, Xor(b, d)));
      { XorAssoc(a, c, Xor(b, d)); }
      Xor(Xor(a, c), Xor(b, d));
    }
  }

  lemma XorZero(a: word, b: word)
    requires Xor(a, b) == 0
    ensures a == b
  {
  }

  lemma FeedbackLinear(a: word, b: word)
    ensures Feedback(Xor(a, b)) == Xor(Feedback(a), Feedback(b))
  {
    hide Xor, TopSet;
    XorTop(a, b);
    XorSelf(POLY);
    XorSelf(0);
  }

  lemma XorTop(a: word, b: word)
    ensures TopSet(Xor(a, b)) <==> (TopSet(a) != TopSet(b))
  {
  }

  lemma {:induction false} ShiftedLinear(a: word, b: word, k: nat)
    ensures Shifted(Xor(a, b), k) == Xor(Shifted(a, k), Shifted(b, k))
  {
    hide Xor, Double;
    if k > 0 {
      ShiftedLinear(a, b, k - 1);
      XorDouble(Shifted(a, k - 1), Shifted(b, k - 1));
    }
  }

  /** The shift register adds: it is linear in its contents and its input together. */
  lemma BitStepLinear(a: word, b: word, x: word, y: word)
    ensures BitStep(Xor(a, b), Xor(x, y)) == Xor(BitStep(a, x), BitStep(b, y))
  {
    hide Xor, Double, Feedback;
    XorSwap(a, b, x, y);
    FeedbackLinear(Xor(a, x), Xor(b, y));
    XorDouble(a, b);
    XorSwap(Double(a), Double(b), Feedback(Xor(a, x)), Feedback(Xor(b, y)));
  }

  lemma {:induction false} BitStepsLinear(a: word, b: word, x: word, y: word, k: nat)
    ensures BitSteps(Xor(a, b), Xor(x, y), k) == Xor(BitSteps(a, x, k), BitSteps(b, y, k))
  {
    hide Xor, Double, BitStep, Shifted;
    if k > 0 {
      BitStepsLinear(a, b, x, y, k - 1);
      ShiftedLinear(x, y, k - 1);
      BitStepLinear(BitSteps(a, x, k - 1), BitSteps(b, y, k - 1), Shifted(x, k - 1), Shifted(y, k - 1));
    }
  }

  lemma NoFeedback()
    ensures Feedback(0) == 0
  {
  }

  /** A register fed its own bits only shifts. */
  lemma {:induction false} OwnBitsOnlyShift(r: word, k: nat)
    ensures BitSteps(r, r, k) == Shifted(r, k)
  {
    hide Xor, Double, TopSet;
    NoFeedback();
    if k > 0 {
      OwnBitsOnlyShift(r, k - 1);
      XorSelf(Shifted(r, k - 1));
      XorSelf(Shifted(r, k));
    }
  }

  /** Bits entering a register are bits entering an empty one, together with what it held. */
  lemma EntersEmpty(r: word, x: word, k: nat)
    ensures BitSteps(r, x, k) == Xor(Shifted(r, k), BitSteps(0, Xor(r, x), k))
  {
    hide Xor, Double, BitStep, Shifted, BitSteps;
    XorSelf(r);
    XorSelf(x);
    XorAssoc(r, r, x);
    BitStepsLinear(r, 0, r, Xor(r, x), k);
    OwnBitsOnlyShift(r, k);
  }

  /** The bits that have not been shifted out of the top byte after k turns. */
  function IndexMask(k: nat): word { Shifted(0xff00_0000, k) }

  lemma IndexMaskTop(k: nat)
    requires k < 8
    ensures TopSet(IndexMask(k))
  {
    assert IndexMask(1) == 0xfe00_0000;
    assert IndexMask(2) == 0xfc00_0000;
    assert IndexMask(3) == 0xf800_0000;
    assert IndexMask(4) == 0xf000_0000;
    assert IndexMask(5) == 0xe000_0000;
    assert IndexMask(6) == 0xc000_0000;
    assert IndexMask(7) == 0x8000_0000;
  }

  predicate SameUnder(x: word, y: word, mask: word) { x & mask == y & mask }

  lemma SameUnderDoubled(x: word, y: word, mask: word)
    requires SameUnder(x, y, mask)
    ensures SameUnder(Double(x), Double(y), Double(mask))
  {
  }

  lemma SameTopBit(x: word, y: word, mask: word)
    requires SameUnder(x, y, mask) && TopSet(mask)
    ensures TopSet(x) <==> TopSet(y)
  {
  }

  lemma {:induction false} SameUnderShifted(x: word, y: word, k: nat)
    requires SameUnder(x, y, 0xff00_0000)
    ensures SameUnder(Shifted(x, k), Shifted(y, k), IndexMask(k))
  {
    hide Double, SameUnder;
    if k > 0 {
      SameUnderShifted(x, y, k - 1);
      SameUnderDoubled(Shifted(x, k - 1), Shifted(y, k - 1), IndexMask(k - 1));
    }
  }

  lemma SameFeedback(r: word, x: word, y: word)
    requires TopSet(x) <==> TopSet(y)
    ensures BitStep(r, x) == BitStep(r, y)
  {
    hide Xor, Double, TopSet;
    XorTop(r, x);
    XorTop(r, y);
  }

  /** Eight turns see no more than the top byte of what enters. */
  lemma {:induction false} OnlyTopByteEnters(r: word, x: word, y: word, k: nat)
    requires SameUnder(x, y, 0xff00_0000) && k <= 8
    ensures BitSteps(r, x, k) == BitSteps(r, y, k)
  {
    hide BitStep, Shifted, SameUnder, TopSet;
    if k > 0 {
      OnlyTopByteEnters(r, x, y, k - 1);
      SameUnderShifted(x, y, k - 1);
      IndexMaskTop(k - 1);
      SameTopBit(Shifted(x, k - 1), Shifted(y, k - 1), IndexMask(k - 1));
      SameFeedback(BitSteps(r, x, k - 1), Shifted(x, k - 1), Shifted(y, k - 1));
    }
  }

  lemma IndexAtTop(r: word, d: octet)
    ensures SameUnder(Xor(r, AtTop(d)), Marked(Index(r, d)), 0xff00_0000)
    ensures Index(r, d) < 256
  {
  }

  /** One turn of the byte loop is eight turns of the shift register. */
  lemma TableStepIsByteStep(r: word, d: octet)
    ensures TableStep(r, d) == ByteStep(r, d)
    ensures Index(r, d) < 256
  {
    hide Xor, Up8, AtTop, Marked, Index, Shifted, BitSteps, SameUnder;
    ShiftedByEight(r);
    EntersEmpty(r, AtTop(d), 8);
    IndexAtTop(r, d);
    OnlyTopByteEnters(0, Xor(r, AtTop(d)), Marked(Index(r, d)), 8);
  }

  lemma DoubleTwice(r: word)
    ensures Double(Double(r)) == r << 2
  {
  }

  lemma FourTimesTwo(r: word)
    ensures (((r << 2) << 2) << 2) << 2 == r << 8
  {
  }

  lemma DoubleEightTimes(r: word)
    ensures Shifted(r, 8) == r << 8
  {
    hide Double;
    assert Shifted(r, 1) == Double(r) && Shifted(r, 2) == Double(Shifted(r, 1));
    assert Shifted(r, 3) == Double(Shifted(r, 2)) && Shifted(r, 4) == Double(Shifted(r, 3));
    assert Shifted(r, 5) == Double(Shifted(r, 4)) && Shifted(r, 6) == Double(Shifted(r, 5));
    assert Shifted(r, 7) == Double(Shifted(r, 6)) && Shifted(r, 8) == Double(Shifted(r, 7));
    DoubleTwice(r);
    DoubleTwice(Shifted(r, 2));
    DoubleTwice(Shifted(r, 4));
    DoubleTwice(Shifted(r, 6));
    FourTimesTwo(r);
  }

  lemma ShiftedByEight(r: word)
    ensures Shifted(r, 8) == Up8(r)
  {
    DoubleEightTimes(r);
  }

  // The sentinel as a counter.

  /** A word whose lowest set bit is the given one. */
  predicate LowestAt(s: word, low: word) {
    s & low != 0 && s & (low - 1) == 0
  }

  /** Where the sentinel bit stands after k turns. */
  function SentinelBit(k: nat): word { Shifted(0x80_0000, k) }

  lemma {:induction false} SentinelIsLowest(i: word, k: nat)
    requires i < 256 && k <= 8
    ensures LowestAt(Sentinel(i, k), SentinelBit(k))
  {
    hide Double, TopSet;
    if k == 0 {
    } else {
      SentinelIsLowest(i, k - 1);
      SentinelBits(k);
      LowestDoubles(Sentinel(i, k - 1), SentinelBit(k - 1));
    }
  }

  lemma LowestDoubles(s: word, low: word)
    requires LowestAt(s, low) && low != 0 && !TopSet(low) && low & (low - 1) == 0
    ensures LowestAt(Double(s), Double(low))
  {
  }

  lemma SentinelBits(k: nat)
    requires 0 < k <= 8
    ensures SentinelBit(k - 1) != 0 && !TopSet(SentinelBit(k - 1)) && SentinelBit(k - 1) & (SentinelBit(k - 1) - 1) == 0
    ensures SentinelBit(8) == TOP
  {
    assert SentinelBit(1) == 0x100_0000;
    assert SentinelBit(2) == 0x200_0000;
    assert SentinelBit(3) == 0x400_0000;
    assert SentinelBit(4) == 0x800_0000;
    assert SentinelBit(5) == 0x1000_0000;
    assert SentinelBit(6) == 0x2000_0000;
    assert SentinelBit(7) == 0x4000_0000;
  }

  /** The sentinel bit reaches the top, alone, after exactly eight turns: the loop condition is a counter. */
  lemma SentinelStops(i: word, k: nat)
    requires i < 256 && k <= 8
    ensures Sentinel(i, k) == TOP <==> k == 8
  {
    SentinelIsLowest(i, k);
    if k < 8 {
      SentinelBits(k + 1);
    } else {
      SentinelBits(8);
    }
  }

  // ------------------------------------------------------- the C functions

  /** The table the two init functions fill. */
  ghost predicate IsTable(table: seq<word>) {
    |table| == 256 && forall i: word :: i < 256 ==> table[i as int] == Entry(i)
  }

  ghost predicate FilledBelow(table: seq<word>, i: word) {
    |table| == 256 && forall m: word :: m < i && m < 256 ==> table[m as int] == Entry(m)
  }

  lemma FillNext(table: seq<word>, i: word)
    requires FilledBelow(table, i) && i < 256
    ensures FilledBelow(table[i as int := Entry(i)], i + 1)
  {
    var table' := table[i as int := Entry(i)];
    forall m: word | m < i + 1 && m < 256 ensures table'[m as int] == Entry(m) {
      if m != i {
        BelowNext(m, i);
        DistinctIndices(m, i);
        IndexInTable(m);
        IndexInTable(i);
      }
    }
  }

  lemma DistinctIndices(m: word, i: word)
    requires m != i
    ensures m as int != i as int
  {
    assert (m as int) as word == m && (i as int) as word == i;
  }

  lemma IndexInTable(i: word)
    requires i < 256
    ensures 0 <= i as int < 256
  {
  }

  lemma BelowNext(m: word, i: word)
    requires m < i + 1 && m != i && i < 256
    ensures m < i
  {
  }

  /** init_crc32 and dtv_source_init_crc_table. */
  method InitTable(table: array<word>)
    requires table.Length == 256
    modifies table
    ensures IsTable(table[..])
  {
    var i: word := 0;
    while i < 256
      invariant i <= 256
      invariant FilledBelow(table[..], i)
      decreases 256 - i as int
    {
      var k := TableWord(i);
      FillNext(table[..], i);
      table[i as int] := k;
      NextIndex(i);
      i := i + 1;
    }
  }

  lemma NextIndex(i: word)
    requires i < 256
    ensures i + 1 <= 256 && 256 - (i + 1) as int < 256 - i as int && 0 <= i as int < 256
  {
    assert (i + 1) as int == i as int + 1;
  }

  lemma TableStarts(i: word)
    ensures Sentinel(i, 0) == Marked(i) && TableAfter(i, 0) == 0
  {
  }

  lemma TableTurns(i: word, k: nat)
    ensures Sentinel(i, k + 1) == Double(Sentinel(i, k))
    ensures TableAfter(i, k + 1) == Xor(Double(TableAfter(i, k)), Feedback(Xor(TableAfter(i, k), Sentinel(i, k))))
  {
    hide Xor, Double, Feedback, Marked;
  }

  /** The inner loop of the two init functions. */
  method TableWord(i: word) returns (k: word)
    requires i < 256
    ensures k == Entry(i)
  {
    hide Xor, Double, TopSet, TableAfter, Sentinel;
    TableStarts(i);
    k := 0;
    var j := (i << 24) | 0x80_0000;
    ghost var turns: nat := 0;
    SentinelStops(i, 0);
    while j != TOP
      invariant turns <= 8
      invariant j == Sentinel(i, turns) && k == TableAfter(i, turns)
      invariant j == TOP <==> turns == 8
      decreases 8 - turns
    {
      TableTurns(i, turns);
      k := Xor(Double(k), if TopSet(Xor(k, j)) then POLY else 0);
      j := Double(j);
      turns := turns + 1;
      SentinelStops(i, turns);
    }
  }

  lemma TableEntry(table: seq<word>, i: word)
    requires IsTable(table) && i < 256
    ensures 0 <= i as int < |table| && table[i as int] == Entry(i)
  {
    hide Entry;
  }

  lemma NothingFed(r: word)
    ensures Register(r, []) == r
  {
  }

  /** The loop of get_crc32 and dtv_source_calc_crc32, on a 32-bit register. */
  method Feed(table: seq<word>, data: seq<octet>, initial: word) returns (result: word)
    requires IsTable(table)
    ensures result == Register(initial, data)
  {
    hide Xor, Up8, Index, Entry, ByteStep, Register, IsTable;
    result := initial;
    NothingFed(initial);
    assert data[..0] == [];
    for i := 0 to |data|
      invariant result == Register(initial, data[..i])
    {
      TableStepIsByteStep(result, data[i]);
      TableEntry(table, Index(result, data[i]));
      result := Xor(Up8(result), table[Index(result, data[i]) as int]);
      RegisterSnoc(initial, data[..i], data[i]);
      assert data[..i + 1] == data[..i] + [data[i]];
    }
    assert data[..|data|] == data;
  }

  /** Feeding a message in two pieces, as generate_pmt's chunk loop does, is feeding it in one. */
  lemma {:induction false} RegisterAppend(r: word, a: seq<octet>, b: seq<octet>)
    ensures Register(r, a + b) == Register(Register(r, a), b)
    decreases |a|
  {
    hide ByteStep;
    if a == [] {
      assert a + b == b;
    } else {
      assert (a + b)[1..] == a[1..] + b;
      RegisterAppend(ByteStep(r, a[0]), a[1..], b);
    }
  }

  lemma RegisterSnoc(r: word, a: seq<octet>, d: octet)
    ensures Register(r, a + [d]) == ByteStep(Register(r, a), d)
  {
    RegisterAppend(r, a, [d]);
    assert [d][1..] == [];
  }
}
