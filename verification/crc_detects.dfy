/** What the section CRC is for: a section with its CRC checks to zero, and a damaged one is noticed. */
module CrcDetects {
  import opened Crc

  // ------------------------------------------------------------ injectivity

  /** The generator is odd: only the zero register steps to zero. */
  lemma BitStepKernel(r: word)
    requires BitStep(r, 0) == 0
    ensures r == 0
  {
  }

  lemma {:induction false} ZeroBits(k: nat)
    ensures Shifted(0, k) == 0
  {
    if k > 0 {
      ZeroBits(k - 1);
    }
  }

  lemma {:induction false} ZeroStepsKernel(r: word, k: nat)
    ensures BitSteps(r, 0, k) == 0 <==> r == 0
  {
    if k > 0 {
      ZeroStepsKernel(r, k - 1);
      ZeroBits(k - 1);
      ZeroStep();
      if BitSteps(r, 0, k) == 0 {
        BitStepKernel(BitSteps(r, 0, k - 1));
      }
    }
  }

  lemma ZeroStep()
    ensures BitStep(0, 0) == 0
  {
  }

  /** A byte step loses nothing of the register. */
  lemma ByteStepInjective(a: word, b: word, d: octet)
    requires ByteStep(a, d) == ByteStep(b, d)
    ensures a == b
  {
    BitStepsLinear(a, b, AtTop(d), AtTop(d), 8);
    XorSelf(AtTop(d));
    XorSelf(ByteStep(a, d));
    ZeroStepsKernel(Xor(a, b), 8);
    XorZero(a, b);
  }

  lemma {:induction false} RegisterInjective(a: word, b: word, data: seq<octet>)
    requires Register(a, data) == Register(b, data)
    ensures a == b
    decreases |data|
  {
    if data != [] {
      RegisterInjective(ByteStep(a, data[0]), ByteStep(b, data[0]), data[1..]);
      ByteStepInjective(a, b, data[0]);
    }
  }

  // ----------------------------------------------------------- four bytes

  /** A register after eight turns with nothing entering. */
  function Z(r: word): word { BitSteps(r, 0, 8) }

  function At16(d: octet): word { (d as word) << 16 }
  function At8(d: octet): word { (d as word) << 8 }
  function At0(d: octet): word { d as word }

  /** A register whose top byte is clear only moves up. */
  lemma ZMovesUp(r: word)
    requires SameUnder(0, r, 0xff00_0000)
    ensures Z(r) == Up8(r)
  {
    OnlyTopByteEnters(r, 0, r, 8);
    OwnBitsOnlyShift(r, 8);
    ShiftedByEight(r);
  }

  lemma TopByteGone(d: octet)
    ensures Up8(AtTop(d)) == 0
  {
  }

  /** A byte may as well enter at the top of the register. */
  lemma ByteEntersAtTop(r: word, d: octet)
    ensures ByteStep(r, d) == Z(Xor(r, AtTop(d)))
  {
    var x := AtTop(d);
    BitStepsLinear(r, x, x, x, 8);
    XorSelf(x);
    OwnBitsOnlyShift(x, 8);
    ShiftedByEight(x);
    TopByteGone(d);
    XorSelf(ByteStep(r, d));
  }

  lemma ZLinear(a: word, b: word)
    ensures Z(Xor(a, b)) == Xor(Z(a), Z(b))
  {
    BitStepsLinear(a, b, 0, 0, 8);
    XorSelf(0);
  }

  lemma ByteMovesUp(d: octet)
    ensures SameUnder(0, At16(d), 0xff00_0000) && SameUnder(0, At8(d), 0xff00_0000) && SameUnder(0, At0(d), 0xff00_0000)
    ensures Up8(At16(d)) == AtTop(d) && Up8(At8(d)) == At16(d) && Up8(At0(d)) == At8(d)
  {
  }

  lemma ZMovesByte(d: octet)
    ensures Z(At16(d)) == AtTop(d) && Z(At8(d)) == At16(d) && Z(At0(d)) == At8(d)
  {
    ByteMovesUp(d);
    ZMovesUp(At16(d));
    ZMovesUp(At8(d));
    ZMovesUp(At0(d));
  }

  /** Four bytes read as one word, the first byte on top. */
  function Word(a: octet, b: octet, c: octet, d: octet): word {
    Xor(Xor(Xor(AtTop(a), At16(b)), At8(c)), At0(d))
  }

  lemma EntersAfterOne(r: word, d: octet)
    ensures ByteStep(Z(r), d) == Z(Z(Xor(r, At16(d))))
  {
    ByteEntersAtTop(Z(r), d);
    ZMovesByte(d);
    ZLinear(r, At16(d));
  }

  lemma EntersAfterTwo(r: word, d: octet)
    ensures ByteStep(Z(Z(r)), d) == Z(Z(Z(Xor(r, At8(d)))))
  {
    EntersAfterOne(Z(r), d);
    ZMovesByte(d);
    ZLinear(r, At8(d));
  }

  lemma EntersAfterThree(r: word, d: octet)
    ensures ByteStep(Z(Z(Z(r))), d) == Z(Z(Z(Z(Xor(r, At0(d))))))
  {
    EntersAfterTwo(Z(r), d);
    ZMovesByte(d);
    ZLinear(r, At0(d));
  }

  lemma XorIntoWord(r: word, a: octet, b: octet, c: octet, d: octet)
    ensures Xor(Xor(Xor(Xor(r, AtTop(a)), At16(b)), At8(c)), At0(d)) == Xor(r, Word(a, b, c, d))
  {
    XorAssoc(r, AtTop(a), At16(b));
    XorAssoc(r, Xor(AtTop(a), At16(b)), At8(c));
    XorAssoc(r, Xor(Xor(AtTop(a), At16(b)), At8(c)), At0(d));
  }

  lemma RegisterOfFour(r: word, a: octet, b: octet, c: octet, d: octet)
    ensures Register(r, [a, b, c, d]) == ByteStep(ByteStep(ByteStep(ByteStep(r, a), b), c), d)
  {
    hide ByteStep, Register;
    NothingFed(r);
    RegisterSnoc(r, [], a);
    RegisterSnoc(r, [a], b);
    RegisterSnoc(r, [a, b], c);
    RegisterSnoc(r, [a, b, c], d);
    assert [] + [a] == [a] && [a] + [b] == [a, b] && [a, b] + [c] == [a, b, c] && [a, b, c] + [d] == [a, b, c, d];
  }

  /** Four bytes enter the register as one word. */
  lemma FourBytes(r: word, a: octet, b: octet, c: octet, d: octet)
    ensures Register(r, [a, b, c, d]) == Z(Z(Z(Z(Xor(r, Word(a, b, c, d))))))
  {
    RegisterOfFour(r, a, b, c, d);
    var r1 := Xor(r, AtTop(a));
    var r2 := Xor(r1, At16(b));
    var r3 := Xor(r2, At8(c));
    ByteEntersAtTop(r, a);
    EntersAfterOne(r1, b);
    EntersAfterTwo(r2, c);
    EntersAfterThree(r3, d);
    XorIntoWord(r, a, b, c, d);
  }

  /** The bytes of a word, the top one first. */
  function TopOctet(w: word): octet { ((w >> 24) & 0xff) as octet }
  function SecondOctet(w: word): octet { ((w >> 16) & 0xff) as octet }
  function ThirdOctet(w: word): octet { ((w >> 8) & 0xff) as octet }
  function LowOctet(w: word): octet { (w & 0xff) as octet }

  lemma TopOfWord(a: octet, b: octet, c: octet, d: octet)
    ensures TopOctet(Word(a, b, c, d)) == a
  {
  }

  lemma SecondOfWord(a: octet, b: octet, c: octet, d: octet)
    ensures SecondOctet(Word(a, b, c, d)) == b
  {
  }

  lemma ThirdOfWord(a: octet, b: octet, c: octet, d: octet)
    ensures ThirdOctet(Word(a, b, c, d)) == c
  {
  }

  lemma LowOfWord(a: octet, b: octet, c: octet, d: octet)
    ensures LowOctet(Word(a, b, c, d)) == d
  {
  }

  lemma WordInjective(a: octet, b: octet, c: octet, d: octet, a': octet, b': octet, c': octet, d': octet)
    requires Word(a, b, c, d) == Word(a', b', c', d')
    ensures a == a' && b == b' && c == c' && d == d'
  {
    TopOfWord(a, b, c, d);
    TopOfWord(a', b', c', d');
    SecondOfWord(a, b, c, d);
    SecondOfWord(a', b', c', d');
    ThirdOfWord(a, b, c, d);
    ThirdOfWord(a', b', c', d');
    LowOfWord(a, b, c, d);
    LowOfWord(a', b', c', d');
  }

  lemma ZInjective(a: word, b: word)
    requires Z(a) == Z(b)
    ensures a == b
  {
    ZLinear(a, b);
    XorSelf(Z(a));
    ZeroStepsKernel(Xor(a, b), 8);
    XorZero(a, b);
  }

  lemma FourTurnsInjective(r: word, x: word, y: word)
    requires Z(Z(Z(Z(Xor(r, x))))) == Z(Z(Z(Z(Xor(r, y)))))
    ensures x == y
  {
    ZInjective(Z(Z(Z(Xor(r, x)))), Z(Z(Z(Xor(r, y)))));
    ZInjective(Z(Z(Xor(r, x))), Z(Z(Xor(r, y))));
    ZInjective(Z(Xor(r, x)), Z(Xor(r, y)));
    ZInjective(Xor(r, x), Xor(r, y));
    XorCancel(r, x, y);
  }

  lemma FourBytesDiffer(r: word, a: octet, b: octet, c: octet, d: octet, a': octet, b': octet, c': octet, d': octet)
    requires Register(r, [a, b, c, d]) == Register(r, [a', b', c', d'])
    ensures a == a' && b == b' && c == c' && d == d'
  {
    FourBytes(r, a, b, c, d);
    FourBytes(r, a', b', c', d');
    FourTurnsInjective(r, Word(a, b, c, d), Word(a', b', c', d'));
    WordInjective(a, b, c, d, a', b', c', d');
  }

  /** Different four-byte words leave different registers. */
  lemma FourBytesInjective(r: word, v: seq<octet>, w: seq<octet>)
    requires |v| == |w| == 4 && Register(r, v) == Register(r, w)
    ensures v == w
  {
    assert v == [v[0], v[1], v[2], v[3]] && w == [w[0], w[1], w[2], w[3]];
    FourBytesDiffer(r, v[0], v[1], v[2], v[3], w[0], w[1], w[2], w[3]);
  }

  lemma XorCancel(r: word, a: word, b: word)
    requires Xor(r, a) == Xor(r, b)
    ensures a == b
  {
  }

  function Zeros(n: nat): seq<octet> { seq(n, i => 0) }

  /** Up to four bytes, by filling up behind them. */
  lemma ShortBurst(r: word, v: seq<octet>, w: seq<octet>)
    requires |v| == |w| <= 4 && Register(r, v) == Register(r, w)
    ensures v == w
  {
    var z := Zeros(4 - |v|);
    RegisterAppend(r, v, z);
    RegisterAppend(r, w, z);
    FourBytesInjective(r, v + z, w + z);
    assert v == (v + z)[..|v|] && w == (w + z)[..|w|];
  }

  /** A short difference between equal stretches leaves its mark to the end. */
  lemma BurstInside(r: word, front: seq<octet>, v: seq<octet>, w: seq<octet>, back: seq<octet>)
    requires |v| == |w| <= 4 && Register(r, front + v + back) == Register(r, front + w + back)
    ensures v == w
  {
    RegisterAppend(r, front + v, back);
    RegisterAppend(r, front + w, back);
    RegisterInjective(Register(r, front + v), Register(r, front + w), back);
    RegisterAppend(r, front, v);
    RegisterAppend(r, front, w);
    ShortBurst(Register(r, front), v, w);
  }

  lemma CutAround(m: seq<octet>, n: seq<octet>, lo: nat, hi: nat)
    requires |m| == |n| && lo <= hi <= |m|
    requires forall i :: 0 <= i < |m| && !(lo <= i < hi) ==> m[i] == n[i]
    ensures m == m[..lo] + m[lo..hi] + m[hi..]
    ensures n == m[..lo] + n[lo..hi] + m[hi..]
  {
  }

  /** Two messages of the same length that differ, but only within four consecutive bytes, have different CRCs. */
  lemma BurstIsDetected(m: seq<octet>, n: seq<octet>, from: nat)
    requires |m| == |n| && m != n
    requires forall i :: 0 <= i < |m| && !(from <= i < from + 4) ==> m[i] == n[i]
    ensures Register(PRESET, m) != Register(PRESET, n)
  {
    hide Register;
    var lo := if from < |m| then from else |m|;
    var hi := if from + 4 < |m| then from + 4 else |m|;
    CutAround(m, n, lo, hi);
    if Register(PRESET, m) == Register(PRESET, n) {
      BurstInside(PRESET, m[..lo], m[lo..hi], n[lo..hi], m[hi..]);
    }
  }

  // -------------------------------------------------------------- remainder

  /** The CRC as both generators write it, most significant byte first. */
  function BigEndian(crc: word): seq<octet> {
    [TopOctet(crc), SecondOctet(crc), ThirdOctet(crc), LowOctet(crc)]
  }

  lemma BigEndianWord(crc: word)
    ensures Word(TopOctet(crc), SecondOctet(crc), ThirdOctet(crc), LowOctet(crc)) == crc
  {
  }

  lemma ZOfZero()
    ensures Z(Z(Z(Z(0)))) == 0
  {
    ZeroStepsKernel(0, 8);
  }

  lemma CrcFeedsToZero(crc: word)
    ensures Register(crc, BigEndian(crc)) == 0
  {
    FourBytes(crc, TopOctet(crc), SecondOctet(crc), ThirdOctet(crc), LowOctet(crc));
    BigEndianWord(crc);
    XorSelf(crc);
    ZOfZero();
  }

  /** The decoder of Annex A ends at zero on a section followed by its CRC, whatever the preset. */
  lemma RemainderIsZero(preset: word, section: seq<octet>)
    ensures Register(preset, section + BigEndian(Register(preset, section))) == 0
  {
    var crc := Register(preset, section);
    RegisterAppend(preset, section, BigEndian(crc));
    CrcFeedsToZero(crc);
  }

  lemma OnlyTheCrcFeedsToZero(crc: word, tail: seq<octet>)
    requires |tail| == 4
    ensures Register(crc, tail) == 0 <==> tail == BigEndian(crc)
  {
    CrcFeedsToZero(crc);
    if Register(crc, tail) == 0 {
      FourBytesInjective(crc, tail, BigEndian(crc));
    }
  }

  /** And on no other four bytes. */
  lemma OnlyTheCrcFits(preset: word, section: seq<octet>, tail: seq<octet>)
    requires |tail| == 4
    ensures Register(preset, section + tail) == 0 <==> tail == BigEndian(Register(preset, section))
  {
    RegisterAppend(preset, section, tail);
    OnlyTheCrcFeedsToZero(Register(preset, section), tail);
  }
}
