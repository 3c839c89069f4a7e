/** The section CRC bit by bit: no damage within 32 consecutive bits goes unnoticed, wherever it starts. */
module CrcBursts {
  import opened Bytes
  import opened Crc
  import opened CrcDetects

  /** A bit, carried at the top of a word. */
  function TopOf(x: word): word { x & TOP }

  predicate IsBit(x: word) { x == 0 || x == TOP }

  /** A register after bits. */
  function RegisterBits(r: word, bits: seq<word>): word
    decreases |bits|
  {
    if bits == [] then r else RegisterBits(BitStep(r, bits[0]), bits[1..])
  }

  /** The k uppermost bits of a word, the top one first. */
  function BitsOf(x: word, k: nat): (r: seq<word>)
    ensures |r| == k
  {
    seq(k, i requires 0 <= i < k => TopOf(Shifted(x, i)))
  }

  /** The bits of a message, each byte's most significant bit first. */
  function Bits(data: seq<octet>): seq<word>
    decreases |data|
  {
    if data == [] then [] else BitsOf(AtTop(data[0]), 8) + Bits(data[1..])
  }

  lemma {:induction false} BitsCount(data: seq<octet>)
    ensures |Bits(data)| == 8 * |data|
    decreases |data|
  {
    if data != [] {
      BitsCount(data[1..]);
    }
  }

  // ------------------------------------------------------- bits are the message

  lemma {:induction false} BitsAppend(r: word, a: seq<word>, b: seq<word>)
    ensures RegisterBits(r, a + b) == RegisterBits(RegisterBits(r, a), b)
    decreases |a|
  {
    if a == [] {
      assert a + b == b;
    } else {
      assert (a + b)[1..] == a[1..] + b;
      BitsAppend(BitStep(r, a[0]), a[1..], b);
    }
  }

  lemma TopOfIsBit(x: word)
    ensures IsBit(TopOf(x)) && (TopSet(TopOf(x)) <==> TopSet(x))
  {
  }

  lemma {:induction false} StepsAreBits(r: word, x: word, k: nat)
    ensures BitSteps(r, x, k) == RegisterBits(r, BitsOf(x, k))
  {
    hide BitStep, TopOf;
    if k == 0 {
      assert BitsOf(x, 0) == [];
    } else {
      StepsAreBits(r, x, k - 1);
      var last := TopOf(Shifted(x, k - 1));
      assert BitsOf(x, k) == BitsOf(x, k - 1) + [last];
      BitsAppend(r, BitsOf(x, k - 1), [last]);
      OneBit(BitSteps(r, x, k - 1), last);
      TopOfIsBit(Shifted(x, k - 1));
      SameFeedback(BitSteps(r, x, k - 1), Shifted(x, k - 1), last);
    }
  }

  lemma OneBit(r: word, x: word)
    ensures RegisterBits(r, [x]) == BitStep(r, x)
  {
    assert [x][1..] == [];
  }

  /** The register of a message is the register of its bits. */
  lemma {:induction false} RegisterIsBits(r: word, data: seq<octet>)
    ensures Register(r, data) == RegisterBits(r, Bits(data))
    decreases |data|
  {
    hide BitSteps, AtTop;
    if data != [] {
      var first := BitsOf(AtTop(data[0]), 8);
      StepsAreBits(r, AtTop(data[0]), 8);
      BitsAppend(r, first, Bits(data[1..]));
      RegisterIsBits(ByteStep(r, data[0]), data[1..]);
    }
  }

  lemma {:induction false} BitsAreBits(data: seq<octet>)
    ensures forall i :: 0 <= i < |Bits(data)| ==> IsBit(Bits(data)[i])
    decreases |data|
  {
    hide TopOf, IsBit, AtTop;
    if data != [] {
      BitsAreBits(data[1..]);
      var first := BitsOf(AtTop(data[0]), 8);
      forall i | 0 <= i < 8 ensures IsBit(first[i]) {
        TopOfIsBit(Shifted(AtTop(data[0]), i));
      }
    }
  }

  // ------------------------------------------------------------ no feedback

  lemma {:induction false} ShiftedSum(r: word, a: nat, b: nat)
    ensures Shifted(r, a + b) == Shifted(Shifted(r, a), b)
  {
    if b > 0 {
      ShiftedSum(r, a, b - 1);
    }
  }

  lemma SevenTimes(r: word)
    ensures ((((r << 2) << 2) << 2) << 1) == r << 7
  {
  }

  lemma ShiftedBySeven(r: word)
    ensures Shifted(r, 7) == r << 7
  {
    assert Shifted(r, 1) == Double(r) && Shifted(r, 2) == Double(Shifted(r, 1));
    assert Shifted(r, 3) == Double(Shifted(r, 2)) && Shifted(r, 4) == Double(Shifted(r, 3));
    assert Shifted(r, 5) == Double(Shifted(r, 4)) && Shifted(r, 6) == Double(Shifted(r, 5));
    assert Shifted(r, 7) == Double(Shifted(r, 6));
    DoubleTwice(r);
    DoubleTwice(Shifted(r, 2));
    DoubleTwice(Shifted(r, 4));
    SevenTimes(r);
  }

  /** The lowest bit is at the top after 31 turns. */
  lemma ThirtyOne(s: word)
    requires s & 1 != 0
    ensures (((s << 8) << 8) << 8) << 7 != 0
  {
  }

  lemma ShiftedByThirtyOne(s: word)
    ensures Shifted(s, 31) == (((s << 8) << 8) << 8) << 7
  {
    ShiftedSum(s, 8, 23);
    ShiftedSum(Shifted(s, 8), 8, 15);
    ShiftedSum(Shifted(Shifted(s, 8), 8), 8, 7);
    DoubleEightTimes(s);
    DoubleEightTimes(Shifted(s, 8));
    DoubleEightTimes(Shifted(Shifted(s, 8), 8));
    ShiftedBySeven(Shifted(Shifted(Shifted(s, 8), 8), 8));
  }

  /** An odd register is not shifted out in 31 turns. */
  lemma OddStays(s: word, i: nat)
    requires s & 1 != 0 && i <= 31
    ensures Shifted(s, i) != 0
  {
    if Shifted(s, i) == 0 {
      ShiftedSum(s, i, 31 - i);
      ZeroBits(31 - i);
      ShiftedByThirtyOne(s);
      ThirtyOne(s);
    }
  }

  lemma OddFeedback(r: word)
    ensures Xor(Double(r), POLY) & 1 != 0
  {
  }

  lemma EqualTops(r: word, x: word)
    requires IsBit(x) && !TopSet(Xor(r, x))
    ensures x == TopOf(r)
  {
  }

  /** The generator is odd: feedback leaves an odd register; without it the bit equals the top bit, and the register
      only shifts. */
  lemma FeedbackIsOdd(r: word, x: word)
    requires IsBit(x)
    ensures BitStep(r, x) & 1 != 0 || (x == TopOf(r) && BitStep(r, x) == Double(r))
  {
    hide Xor, Double, TopSet, TopOf, IsBit;
    if TopSet(Xor(r, x)) {
      OddFeedback(r);
    } else {
      XorSelf(Double(r));
      EqualTops(r, x);
    }
  }

  /** A register that is shifted out in i turns must have come from one shifted out in i + 1, without feedback. */
  lemma StepBack(r: word, x: word, i: nat)
    requires IsBit(x) && i <= 31 && Shifted(BitStep(r, x), i) == 0
    ensures Shifted(r, i + 1) == 0 && x == TopOf(r) && BitStep(r, x) == Double(r)
  {
    hide BitStep, TopOf, IsBit;
    FeedbackIsOdd(r, x);
    if BitStep(r, x) & 1 != 0 {
      OddStays(BitStep(r, x), i);
    }
    ShiftedSum(r, 1, i);
    assert Shifted(r, 1) == Double(r);
  }

  /** At most 32 bits that leave nothing behind have met no feedback on the way. */
  lemma {:induction false} NoFeedback(r: word, u: seq<word>, i: nat)
    requires |u| + i <= 32 && Shifted(RegisterBits(r, u), i) == 0 && forall k :: 0 <= k < |u| ==> IsBit(u[k])
    ensures Shifted(r, i + |u|) == 0
    ensures r == 0 ==> forall k :: 0 <= k < |u| ==> u[k] == 0
    decreases |u|
  {
    hide BitStep, TopOf, IsBit, Shifted;
    if u != [] {
      NoFeedback(BitStep(r, u[0]), u[1..], i);
      StepBack(r, u[0], i + |u| - 1);
      if r == 0 {
        ZeroDoubled();
        forall k | 0 <= k < |u| ensures u[k] == 0 {
          if k > 0 {
            assert u[k] == u[1..][k - 1];
          }
        }
      }
    }
  }

  lemma ZeroDoubled()
    ensures Double(0) == 0 && TopOf(0) == 0
  {
  }

  // ------------------------------------------------------------ differences

  function Difference(v: seq<word>, w: seq<word>): (r: seq<word>)
    requires |v| == |w|
    ensures |r| == |v|
  {
    seq(|v|, i requires 0 <= i < |v| => Xor(v[i], w[i]))
  }

  lemma {:induction false} BitsLinear(r: word, s: word, v: seq<word>, w: seq<word>)
    requires |v| == |w|
    ensures RegisterBits(Xor(r, s), Difference(v, w)) == Xor(RegisterBits(r, v), RegisterBits(s, w))
    decreases |v|
  {
    hide Xor, BitStep;
    if v != [] {
      assert Difference(v, w)[1..] == Difference(v[1..], w[1..]);
      BitStepLinear(r, s, v[0], w[0]);
      BitsLinear(BitStep(r, v[0]), BitStep(s, w[0]), v[1..], w[1..]);
    }
  }

  lemma BitDifference(x: word, y: word)
    requires IsBit(x) && IsBit(y)
    ensures IsBit(Xor(x, y)) && (Xor(x, y) == 0 ==> x == y)
  {
  }

  /** At most 32 bits from the same register leave different registers if they differ. */
  lemma FewBitsInjective(r: word, v: seq<word>, w: seq<word>)
    requires |v| == |w| <= 32 && (forall k :: 0 <= k < |v| ==> IsBit(v[k]) && IsBit(w[k]))
    requires RegisterBits(r, v) == RegisterBits(r, w)
    ensures v == w
  {
    hide Xor, IsBit;
    var u := Difference(v, w);
    BitsLinear(r, r, v, w);
    XorSelf(r);
    XorSelf(RegisterBits(r, v));
    forall k | 0 <= k < |u| ensures IsBit(u[k]) {
      BitDifference(v[k], w[k]);
    }
    NoFeedback(0, u, 0);
    forall k | 0 <= k < |v| ensures v[k] == w[k] {
      assert u[k] == 0;
      BitDifference(v[k], w[k]);
    }
  }

  lemma BitStepInjective(r: word, s: word, x: word)
    requires BitStep(r, x) == BitStep(s, x)
    ensures r == s
  {
    hide Xor, BitStep;
    BitStepLinear(r, s, x, x);
    XorSelf(x);
    XorSelf(BitStep(r, x));
    BitStepKernel(Xor(r, s));
    XorZero(r, s);
  }

  lemma {:induction false} RegisterBitsInjective(r: word, s: word, bits: seq<word>)
    requires RegisterBits(r, bits) == RegisterBits(s, bits)
    ensures r == s
    decreases |bits|
  {
    hide BitStep;
    if bits != [] {
      RegisterBitsInjective(BitStep(r, bits[0]), BitStep(s, bits[0]), bits[1..]);
      BitStepInjective(r, s, bits[0]);
    }
  }

  // ------------------------------------------------------------ the theorem

  lemma BitBurst(r: word, front: seq<word>, v: seq<word>, w: seq<word>, back: seq<word>)
    requires |v| == |w| <= 32 && (forall k :: 0 <= k < |v| ==> IsBit(v[k]) && IsBit(w[k]))
    requires RegisterBits(r, front + v + back) == RegisterBits(r, front + w + back)
    ensures v == w
  {
    hide RegisterBits, IsBit;
    BitsAppend(r, front + v, back);
    BitsAppend(r, front + w, back);
    RegisterBitsInjective(RegisterBits(r, front + v), RegisterBits(r, front + w), back);
    BitsAppend(r, front, v);
    BitsAppend(r, front, w);
    FewBitsInjective(RegisterBits(r, front), v, w);
  }

  lemma CutAroundBits(m: seq<word>, n: seq<word>, lo: nat, hi: nat)
    requires |m| == |n| && lo <= hi <= |m|
    requires forall i :: 0 <= i < |m| && !(lo <= i < hi) ==> m[i] == n[i]
    ensures m == m[..lo] + m[lo..hi] + m[hi..] && n == m[..lo] + n[lo..hi] + m[hi..]
  {
  }

  lemma UndoDouble(y: word, mask: word)
    requires TopOf(y) == 0 && SameUnder(Double(y), 0, Double(mask))
    ensures SameUnder(y, 0, mask)
  {
  }

  lemma NoneLeft(y: word)
    ensures SameUnder(y, 0, Up8(0xff00_0000))
  {
  }

  /** A byte is determined by its bits. */
  lemma {:induction false} TopBitsZero(x: word, k: nat)
    requires k <= 8 && forall i :: 0 <= i < 8 ==> TopOf(Shifted(x, i)) == 0
    ensures SameUnder(Shifted(x, k), 0, IndexMask(k))
    decreases 8 - k
  {
    hide Double, TopOf, SameUnder, Up8;
    if k == 8 {
      ShiftedByEight(0xff00_0000);
      NoneLeft(Shifted(x, 8));
    } else {
      TopBitsZero(x, k + 1);
      UndoDouble(Shifted(x, k), IndexMask(k));
    }
  }

  lemma SameByte(d: octet, e: octet)
    requires SameUnder(Xor(AtTop(d), AtTop(e)), 0, 0xff00_0000)
    ensures d == e
  {
  }

  lemma TopOfXor(x: word, y: word)
    requires TopOf(x) == TopOf(y)
    ensures TopOf(Xor(x, y)) == 0
  {
  }

  lemma ByteFromBits(d: octet, e: octet)
    requires BitsOf(AtTop(d), 8) == BitsOf(AtTop(e), 8)
    ensures d == e
  {
    hide TopOf, Xor, AtTop, SameUnder;
    var x, y := AtTop(d), AtTop(e);
    var z := Xor(x, y);
    forall k | 0 <= k < 8 ensures TopOf(Shifted(z, k)) == 0 {
      assert BitsOf(x, 8)[k] == BitsOf(y, 8)[k];
      ShiftedLinear(x, y, k);
      TopOfXor(Shifted(x, k), Shifted(y, k));
    }
    TopBitsZero(z, 0);
    SameByte(d, e);
  }

  lemma {:induction false} MessageFromBits(m: seq<octet>, n: seq<octet>)
    requires |m| == |n| && Bits(m) == Bits(n)
    ensures m == n
    decreases |m|
  {
    hide BitsOf, AtTop;
    if m != [] {
      var a, b := BitsOf(AtTop(m[0]), 8), BitsOf(AtTop(n[0]), 8);
      assert a == Bits(m)[..8] && b == Bits(n)[..8];
      assert Bits(m[1..]) == Bits(m)[8..] && Bits(n[1..]) == Bits(n)[8..];
      ByteFromBits(m[0], n[0]);
      MessageFromBits(m[1..], n[1..]);
    }
  }

  /** Two lists of bits that agree outside 32 consecutive places. */
  ghost predicate SameOutside(a: seq<word>, b: seq<word>, from: nat) {
    |a| == |b| && forall i :: 0 <= i < |a| && !(from <= i < from + 32) ==> a[i] == b[i]
  }

  /** Two messages of the same length that differ, but only within 32 consecutive bits, have different CRCs; the
      bits may start anywhere and so lie in five bytes. */
  lemma BitBurstIsDetected(m: seq<octet>, n: seq<octet>, from: nat)
    requires |m| == |n| && m != n
    requires SameOutside(Bits(m), Bits(n), from)
    ensures Register(PRESET, m) != Register(PRESET, n)
  {
    hide Register, RegisterBits, Bits, IsBit;
    var a, b := Bits(m), Bits(n);
    var lo := if from < |a| then from else |a|;
    var hi := if from + 32 < |a| then from + 32 else |a|;
    RegisterIsBits(PRESET, m);
    RegisterIsBits(PRESET, n);
    BitsAreBits(m);
    BitsAreBits(n);
    BitsCount(m);
    BitsCount(n);
    CutAroundBits(a, b, lo, hi);
    if Register(PRESET, m) == Register(PRESET, n) {
      BitBurst(PRESET, a[..lo], a[lo..hi], b[lo..hi], a[hi..]);
      MessageFromBits(m, n);
    }
  }
}
