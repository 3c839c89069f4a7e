/** How the AES decryptor reads keys and vectors from text. */
module HexKey {
  import opened Bytes
  import opened Hex

  const ZERO: byte := 48
  const SMALL_X: byte := 120
  const CAPITAL_X: byte := 88
  const PLUS: byte := 43
  const MINUS: byte := 45

  // ------------------------------------------------------------ std::stoul

  predicate IsSpace(c: byte) { c == 32 || 9 <= c <= 13 }

  function AfterSpace(s: seq<byte>): seq<byte> {
    if s != [] && IsSpace(s[0]) then AfterSpace(s[1..]) else s
  }

  /** A prefix counts only in front of a digit. */
  function AfterPrefix(s: seq<byte>): seq<byte> {
    if |s| > 2 && s[0] == ZERO && (s[1] == SMALL_X || s[1] == CAPITAL_X) && IsDigit(s[2]) then s[2..] else s
  }

  /** std::stoul with base 16, cast to one byte: it skips white space, takes a sign and a prefix, and stops at the first
      character that is no digit; it throws when there is no digit at all. The texts here are too short to overflow. */
  function Stoul(s: seq<byte>): Option<byte> {
    var t := AfterSpace(s);
    var signed := t != [] && (t[0] == PLUS || t[0] == MINUS);
    var u := AfterPrefix(if signed then t[1..] else t);
    if u == [] || !IsDigit(u[0]) then None
    else
      var n := ReadOn(u, 0).0;
      Some(if signed && t[0] == MINUS then (256 - n % 256) % 256 else n % 256)
  }

  // --------------------------------------------------------------- the text

  predicate Prefixed(s: seq<byte>) { |s| >= 3 && s[0] == ZERO && s[1] == SMALL_X }

  /** The bytes of an even number of characters, two by two. */
  function Pairs(s: seq<byte>): Option<seq<byte>>
    requires |s| % 2 == 0
  {
    if s == [] then Some([])
    else
      match Stoul(s[..2])
      case None => None
      case Some(b) =>
        match Pairs(s[2..])
        case None => None
        case Some(bs) => Some([b] + bs)
  }

  /** What the text stands for: behind 0x, an odd number of characters starts with one alone. */
  function Converted(s: seq<byte>): Option<seq<byte>> {
    if !Prefixed(s) then None
    else if |s| % 2 == 0 then Pairs(s[2..])
    else
      match Stoul(s[2..3])
      case None => None
      case Some(b) =>
        match Pairs(s[3..])
        case None => None
        case Some(bs) => Some([b] + bs)
  }

  // ------------------------------------------------------------- the method

  lemma NoPairs()
    ensures Pairs([]) == Some([])
  {
  }

  lemma {:induction false} PairsSnoc(a: seq<byte>, c: seq<byte>)
    requires |a| % 2 == 0 && |c| == 2
    ensures Pairs(a + c) ==
      if Pairs(a).None? || Stoul(c).None? then None else Some(Pairs(a).value + [Stoul(c).value])
    decreases |a|
  {
    hide Stoul;
    if a == [] {
      assert a + c == c && c[..2] == c && c[2..] == [];
      NoPairs();
      if Stoul(c).Some? {
        var x := Stoul(c).value;
        assert [x] + [] == [x] && [] + [x] == [x];
      }
    } else {
      assert (a + c)[..2] == a[..2] && (a + c)[2..] == a[2..] + c;
      PairsSnoc(a[2..], c);
      if Pairs(a).Some? && Stoul(c).Some? {
        var b, bs, x := Stoul(a[..2]).value, Pairs(a[2..]).value, Stoul(c).value;
        assert [b] + (bs + [x]) == ([b] + bs) + [x];
      }
    }
  }

  lemma {:induction false} PairsFail(a: seq<byte>, rest: seq<byte>)
    requires |a| % 2 == 0 && |rest| % 2 == 0 && Pairs(a).None?
    ensures Pairs(a + rest).None?
    decreases |a|
  {
    hide Stoul;
    assert (a + rest)[..2] == a[..2] && (a + rest)[2..] == a[2..] + rest;
    if Stoul(a[..2]).Some? {
      PairsFail(a[2..], rest);
    }
  }

  lemma ConvertedParts(s: seq<byte>)
    ensures !Prefixed(s) ==> Converted(s) == None
    ensures Prefixed(s) && |s| % 2 == 0 ==> Converted(s) == Pairs(s[2..])
    ensures Prefixed(s) && |s| % 2 == 1 ==>
      (Converted(s) ==
       if Stoul(s[2..3]).None? || Pairs(s[3..]).None? then None else Some([Stoul(s[2..3]).value] + Pairs(s[3..]).value))
  {
    hide Stoul, Pairs;
  }

  /** convert_text_to_byte_array: the bytes go behind those already there; a failed conversion empties the vector, a
      text without the prefix leaves it alone. */
  method ConvertTextToByteArray(myvec: seq<byte>, text: seq<byte>) returns (ret: bool, myvec': seq<byte>)
    ensures ret <==> Converted(text).Some?
    ensures ret ==> myvec' == myvec + Converted(text).value
    ensures !Prefixed(text) ==> myvec' == myvec
    ensures Prefixed(text) && !ret ==> myvec' == []
  {
    hide Stoul, Pairs, Converted;
    ConvertedParts(text);
    myvec' := myvec;
    if !Prefixed(text) {
      return false, myvec';
    }
    var convertedLength := (|text| - 2) / 2;
    var readOffset := 2;
    if |text| % 2 != 0 {
      var decoded := Stoul(text[readOffset..readOffset + 1]);
      if decoded.None? {
        return false, [];
      }
      readOffset := readOffset + 1;
      myvec' := myvec' + [decoded.value];
    }
    ghost var first, start := myvec', readOffset;
    assert text[start..start] == [] && first + [] == first;
    NoPairs();
    while 0 < convertedLength
      invariant start <= readOffset <= |text| && |text| - readOffset == 2 * convertedLength
      invariant (readOffset - start) % 2 == 0
      invariant Pairs(text[start..readOffset]).Some? && myvec' == first + Pairs(text[start..readOffset]).value
      decreases convertedLength
    {
      convertedLength := convertedLength - 1;
      ghost var done, pair := text[start..readOffset], text[readOffset..readOffset + 2];
      assert done + pair == text[start..readOffset + 2];
      PairsSnoc(done, pair);
      var decoded := Stoul(text[readOffset..readOffset + 2]);
      if decoded.None? {
        assert text[start..] == (done + pair) + text[readOffset + 2..];
        PairsFail(done + pair, text[readOffset + 2..]);
        return false, [];
      }
      myvec' := myvec' + [decoded.value];
      readOffset := readOffset + 2;
    }
    assert text[start..readOffset] == text[start..];
    ghost var pairs := Pairs(text[start..]).value;
    if start == 3 {
      Associates(myvec, [Stoul(text[2..3]).value], pairs);
    }
    ret := true;
  }

  // ------------------------------------------------------ one pair of characters

  predicate IsSign(c: byte) { c == PLUS || c == MINUS }

  /** Two characters with a number in them: a digit in front, or a digit behind white space or a sign. */
  predicate AcceptedPair(c: byte, d: byte) {
    IsDigit(c) || ((IsSpace(c) || IsSign(c)) && IsDigit(d))
  }

  /** That number: what follows a single digit is dropped, white space and plus do not matter, minus wraps around. */
  function PairValue(c: byte, d: byte): byte
    requires AcceptedPair(c, d)
  {
    if IsDigit(c) then
      if IsDigit(d) then 16 * DigitValue(c).value + DigitValue(d).value else DigitValue(c).value
    else if c == MINUS then (256 - DigitValue(d).value) % 256
    else DigitValue(d).value
  }

  lemma ReadOne(c: byte)
    ensures ReadOn([c], 0) == if IsDigit(c) then (DigitValue(c).value, []) else (0, [c])
  {
    assert [c][1..] == [];
    if IsDigit(c) {
      assert ReadOn([c], 0) == ReadOn([], DigitValue(c).value);
    }
  }

  lemma ReadTwo(c: byte, d: byte)
    requires IsDigit(c)
    ensures ReadOn([c, d], 0).0 ==
      if IsDigit(d) then 16 * DigitValue(c).value + DigitValue(d).value else DigitValue(c).value
  {
    assert [c, d][1..] == [d] && [d][1..] == [];
    assert ReadOn([c, d], 0) == ReadOn([d], DigitValue(c).value);
    if IsDigit(d) {
      assert ReadOn([d], DigitValue(c).value) == ReadOn([], 16 * DigitValue(c).value + DigitValue(d).value);
    }
  }

  /** One character: only a digit. */
  lemma StoulSingle(c: byte)
    ensures Stoul([c]) == if IsDigit(c) then Some(DigitValue(c).value) else None
  {
    hide ReadOn;
    assert [c][1..] == [];
    ReadOne(c);
    if IsSpace(c) {
      assert AfterSpace([c]) == AfterSpace([]);
    }
  }

  lemma StoulPairDigit(c: byte, d: byte)
    requires IsDigit(c)
    ensures Stoul([c, d]) == Some(PairValue(c, d))
  {
    hide ReadOn;
    ReadTwo(c, d);
  }

  lemma StoulPairOther(c: byte, d: byte)
    requires !IsDigit(c)
    ensures Stoul([c, d]) == if AcceptedPair(c, d) then Some(PairValue(c, d)) else None
  {
    hide ReadOn;
    ReadOne(d);
    assert [c, d][1..] == [d] && [d][1..] == [];
    if IsSpace(c) {
      assert AfterSpace([c, d]) == AfterSpace([d]);
    }
  }

  /** Two characters: exactly the accepted pairs, with their value. */
  lemma StoulPair(c: byte, d: byte)
    ensures Stoul([c, d]) == if AcceptedPair(c, d) then Some(PairValue(c, d)) else None
  {
    hide Stoul, PairValue;
    if IsDigit(c) {
      StoulPairDigit(c, d);
    } else {
      StoulPairOther(c, d);
    }
  }

  // ---------------------------------------------------------------- digits

  ghost predicate Digits(s: seq<byte>) { forall i :: 0 <= i < |s| ==> IsDigit(s[i]) }

  /** The number a text of hexadecimal digits stands for. */
  function Number(s: seq<byte>): nat
  {
    if s == [] then 0
    else 16 * Number(s[..|s| - 1]) + (if IsDigit(s[|s| - 1]) then DigitValue(s[|s| - 1]).value else 0)
  }

  /** The number a byte string stands for, most significant byte first. */
  function Value(bs: seq<byte>): nat {
    if bs == [] then 0 else 256 * Value(bs[..|bs| - 1]) + bs[|bs| - 1]
  }

  lemma NumberOne(c: byte)
    requires IsDigit(c)
    ensures Number([c]) == DigitValue(c).value
  {
    assert [c][..0] == [];
  }

  lemma NumberTwo(s: seq<byte>, c: byte, d: byte)
    requires IsDigit(c) && IsDigit(d)
    ensures Number(s + [c, d]) == 256 * Number(s) + 16 * DigitValue(c).value + DigitValue(d).value
  {
    assert (s + [c, d])[..|s| + 1] == s + [c] && (s + [c])[..|s|] == s;
    assert Number(s + [c]) == 16 * Number(s) + DigitValue(c).value;
  }

  /** An even number of digits behind a text already read. */
  lemma {:induction false} PairsValue(s: seq<byte>)
    requires |s| % 2 == 0 && Digits(s)
    ensures Pairs(s).Some? && |Pairs(s).value| == |s| / 2 && Value(Pairs(s).value) == Number(s)
    decreases |s|
  {
    hide Stoul;
    if s == [] {
      NoPairs();
    } else {
      var front, c, d := s[..|s| - 2], s[|s| - 2], s[|s| - 1];
      assert s == front + [c, d];
      PairsValue(front);
      PairsSnoc(front, [c, d]);
      StoulPair(c, d);
      NumberTwo(front, c, d);
      ValueSnoc(Pairs(front).value, Stoul([c, d]).value);
    }
  }

  lemma ValueSnoc(bs: seq<byte>, b: byte)
    ensures Value(bs + [b]) == 256 * Value(bs) + b
  {
    assert (bs + [b])[..|bs|] == bs;
  }

  lemma {:induction false} PairsBehind(b: byte, c: byte, s: seq<byte>)
    requires |s| % 2 == 0 && Digits(s) && IsDigit(c) && b == DigitValue(c).value
    ensures Pairs(s).Some? && Value([b] + Pairs(s).value) == Number([c] + s)
    decreases |s|
  {
    hide Stoul;
    if s == [] {
      NoPairs();
      StoulSingle(c);
      NumberOne(c);
      assert [b] + [] == [b] && [c] + [] == [c];
      ValueSnoc([], b);
      assert [] + [b] == [b];
    } else {
      var front, x, y := s[..|s| - 2], s[|s| - 2], s[|s| - 1];
      assert s == front + [x, y] && [c] + s == ([c] + front) + [x, y];
      PairsBehind(b, c, front);
      PairsSnoc(front, [x, y]);
      StoulPair(x, y);
      NumberTwo([c] + front, x, y);
      ValueSnoc([b] + Pairs(front).value, Stoul([x, y]).value);
      assert [b] + Pairs(s).value == ([b] + Pairs(front).value) + [Stoul([x, y]).value];
    }
  }

  lemma BehindPrefix(t: seq<byte>)
    requires t != []
    ensures |t| % 2 == 0 ==> Converted([ZERO, SMALL_X] + t) == Pairs(t)
    ensures |t| % 2 == 1 ==>
      (Converted([ZERO, SMALL_X] + t) ==
       if Stoul([t[0]]).None? || Pairs(t[1..]).None? then None else Some([Stoul([t[0]]).value] + Pairs(t[1..]).value))
  {
    hide Stoul, Pairs, Converted;
    var s := [ZERO, SMALL_X] + t;
    ConvertedParts(s);
    assert s[2..] == t && s[2..3] == [t[0]] && s[3..] == t[1..];
  }

  /** Any number of hexadecimal digits, odd or even, is accepted; the bytes stand for the same number and there are
      half as many of them, rounded up. */
  lemma DigitsKeepValue(digits: seq<byte>)
    requires digits != [] && Digits(digits)
    ensures var r := Converted([ZERO, SMALL_X] + digits);
      r.Some? && Value(r.value) == Number(digits) && |r.value| == (|digits| + 1) / 2
  {
    hide Stoul, DigitValue, Pairs, Converted, Value, Number;
    BehindPrefix(digits);
    if |digits| % 2 == 0 {
      PairsValue(digits);
    } else {
      var c, rest := digits[0], digits[1..];
      assert digits == [c] + rest;
      StoulSingle(c);
      NumberOne(c);
      PairsValue(rest);
      PairsBehind(Stoul([c]).value, c, rest);
    }
  }

  /** Two digits a byte. */
  function PrintByte(b: byte): seq<byte> { [Digit(b / 16), Digit(b % 16)] }

  function PrintAll(bs: seq<byte>): seq<byte> {
    if bs == [] then [] else PrintByte(bs[0]) + PrintAll(bs[1..])
  }

  lemma {:induction false} PrintedPairs(bs: seq<byte>)
    ensures |PrintAll(bs)| == 2 * |bs| && Pairs(PrintAll(bs)) == Some(bs)
  {
    hide Stoul, DigitValue, Digit;
    if bs == [] {
      NoPairs();
    } else {
      var s := PrintAll(bs);
      PrintedPairs(bs[1..]);
      assert s[..2] == [Digit(bs[0] / 16), Digit(bs[0] % 16)] && s[2..] == PrintAll(bs[1..]);
      StoulPair(Digit(bs[0] / 16), Digit(bs[0] % 16));
      assert 16 * (bs[0] / 16) + bs[0] % 16 == bs[0];
      assert bs == [bs[0]] + bs[1..];
    }
  }

  /** Reading undoes printing, for every key or vector of at least one byte. */
  lemma PrintedKeyReadBack(bs: seq<byte>)
    requires bs != []
    ensures Converted([ZERO, SMALL_X] + PrintAll(bs)) == Some(bs)
  {
    hide Pairs, Converted, PrintAll;
    PrintedPairs(bs);
    BehindPrefix(PrintAll(bs));
  }

  // ------------------------------------------------------ what is accepted

  ghost predicate AcceptedPairs(s: seq<byte>)
    requires |s| % 2 == 0
  {
    forall k :: 0 <= k < |s| / 2 ==> AcceptedAt(s, k)
  }

  predicate AcceptedAt(s: seq<byte>, k: nat)
    requires 2 * k + 1 < |s|
  {
    AcceptedPair(s[2 * k], s[2 * k + 1])
  }

  lemma RestAccepted(s: seq<byte>)
    requires |s| % 2 == 0 && s != []
    ensures AcceptedPairs(s) <==> AcceptedAt(s, 0) && AcceptedPairs(s[2..])
  {
    hide AcceptedPair;
    var rest := s[2..];
    forall k | 0 <= k < |rest| / 2 ensures AcceptedAt(rest, k) == AcceptedAt(s, k + 1) {
      assert rest[2 * k] == s[2 * (k + 1)] && rest[2 * k + 1] == s[2 * (k + 1) + 1];
    }
    if AcceptedAt(s, 0) && AcceptedPairs(rest) {
      forall k | 0 <= k < |s| / 2 ensures AcceptedAt(s, k) {
        if k > 0 {
          assert AcceptedAt(rest, k - 1);
        }
      }
    }
    if AcceptedPairs(s) {
      forall k | 0 <= k < |rest| / 2 ensures AcceptedAt(rest, k) {
        assert AcceptedAt(s, k + 1);
      }
    }
  }

  /** The bytes of accepted pairs, one a pair. */
  ghost predicate ArePairValues(bs: seq<byte>, s: seq<byte>)
    requires |s| % 2 == 0 && AcceptedPairs(s)
  {
    |bs| == |s| / 2 && forall k :: 0 <= k < |bs| ==> IsPairValue(bs[k], s, k)
  }

  predicate IsPairValue(b: byte, s: seq<byte>, k: nat)
    requires 2 * k + 1 < |s|
  {
    AcceptedAt(s, k) && b == PairValue(s[2 * k], s[2 * k + 1])
  }

  lemma {:induction false} PairsExactly(s: seq<byte>)
    requires |s| % 2 == 0
    ensures Pairs(s).Some? <==> AcceptedPairs(s)
    ensures Pairs(s).Some? ==> ArePairValues(Pairs(s).value, s)
    decreases |s|
  {
    hide Stoul, AcceptedPair, AcceptedPairs, PairValue;
    if s == [] {
      NoPairs();
      NothingAccepted();
    } else {
      assert s[..2] == [s[0], s[1]];
      StoulPair(s[0], s[1]);
      RestAccepted(s);
      PairsExactly(s[2..]);
      if Pairs(s).Some? {
        var rest, bs := s[2..], Pairs(s).value;
        forall k | 0 <= k < |bs| ensures IsPairValue(bs[k], s, k) {
          if k > 0 {
            assert IsPairValue(bs[1..][k - 1], rest, k - 1);
            assert rest[2 * (k - 1)] == s[2 * k] && rest[2 * (k - 1) + 1] == s[2 * k + 1];
          }
        }
      }
    }
  }

  lemma NothingAccepted()
    ensures AcceptedPairs([])
  {
  }

  /** Exactly which texts are accepted behind 0x, and what bytes they stand for: an odd number of characters starts
      with a digit, and every further pair has a digit in front, or one behind white space or a sign. */
  lemma AcceptedExactly(t: seq<byte>)
    ensures var r := Converted([ZERO, SMALL_X] + t);
      && (r.Some? <==> t != [] && (|t| % 2 == 1 ==> IsDigit(t[0])) && AcceptedPairs(t[|t| % 2..]))
      && (r.Some? ==> |r.value| == (|t| + 1) / 2 && ArePairValues(r.value[|t| % 2..], t[|t| % 2..]))
      && (r.Some? && |t| % 2 == 1 ==> r.value[0] == DigitValue(t[0]).value)
  {
    hide Stoul, Pairs, AcceptedPairs, IsDigit, IsPairValue;
    if t != [] {
      hide Converted;
      BehindPrefix(t);
      if |t| % 2 == 0 {
        assert t == t[0..];
        PairsExactly(t);
        if Pairs(t).Some? {
          assert Pairs(t).value[0..] == Pairs(t).value;
        }
      } else {
        StoulSingle(t[0]);
        PairsExactly(t[1..]);
        if Pairs(t[1..]).Some? && Stoul([t[0]]).Some? {
          assert ([Stoul([t[0]]).value] + Pairs(t[1..]).value)[1..] == Pairs(t[1..]).value;
        }
      }
    }
  }

  /** The number of a text in hexadecimal notation, which only digits have. */
  ghost function Notation(t: seq<byte>): Option<nat> {
    if t != [] && Digits(t) then Some(Number(t)) else None
  }

  /** A text is accepted with the number it denotes exactly if it denotes one: if every character is a digit. That
      other texts denote none is how Notation is defined; what is read from them says AcceptedExactly, and that
      digits keep their value DigitsKeepValue. */
  lemma ValueExactly(t: seq<byte>)
    ensures var r := Converted([ZERO, SMALL_X] + t);
      r.Some? && Notation(t) == Some(Value(r.value)) <==> t != [] && Digits(t)
  {
    hide Converted, Value, Number;
    if t != [] && Digits(t) {
      DigitsKeepValue(t);
    }
  }

  lemma OnePair(c: seq<byte>)
    requires |c| == 2 && Stoul(c).Some?
    ensures Pairs(c) == Some([Stoul(c).value])
  {
    hide Stoul;
    NoPairs();
    PairsSnoc([], c);
    assert [] + c == c && [] + [Stoul(c).value] == [Stoul(c).value];
  }

  /** What is accepted is not only digits: a sign is, and so is anything behind the first digit of a pair. */
  lemma MoreThanDigits()
    ensures Converted([ZERO, SMALL_X, MINUS, 49]) == Some([255])
    ensures Converted([ZERO, SMALL_X, 49, 90]) == Some([1])
  {
    assert ReadOn([49], 0) == ReadOn([], 1);
    assert ReadOn([49, 90], 0) == ReadOn([90], 1) && ReadOn([90], 1) == (1, [90]);
    assert Stoul([MINUS, 49]) == Some(255) && Stoul([49, 90]) == Some(1);
    var s, t := [ZERO, SMALL_X, MINUS, 49], [ZERO, SMALL_X, 49, 90];
    assert s[2..] == [MINUS, 49] && t[2..] == [49, 90];
    OnePair([MINUS, 49]);
    OnePair([49, 90]);
  }
}
