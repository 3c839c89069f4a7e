/** The chunked branch of the HTTP sink, and a decoder of the transfer coding it emits. */
module HttpSinkChunks {
  import opened Bytes
  import opened Hex

  const CR: byte := 13
  const LF: byte := 10

  /** One buffer as it is framed: its size, its bytes, and a line end behind each. */
  function Frame(b: seq<byte>): seq<byte> { Print(|b|) + [CR, LF] + b + [CR, LF] }

  function Framed(bs: seq<seq<byte>>): seq<byte> {
    if bs == [] then [] else Frame(bs[0]) + Framed(bs[1..])
  }

  // --------------------------------------------------------------- decoding

  /** Open: every chunk so far was whole and more may come. Ended: the last chunk was seen. */
  datatype Decoded = Open(data: seq<byte>) | Ended(data: seq<byte>) | Incomplete | Malformed

  function Prefixed(b: seq<byte>, d: Decoded): Decoded {
    match d
    case Open(data) => Open(b + data)
    case Ended(data) => Ended(b + data)
    case _ => d
  }

  predicate LineEndFirst(s: seq<byte>) { |s| >= 2 && s[0] == CR && s[1] == LF }

  /** Section 7.1 of RFC 9112, without chunk extensions. What follows a last chunk is the trailer. */
  function Decode(w: seq<byte>): Decoded
    decreases |w|
  {
    if w == [] then Open([])
    else if !IsDigit(w[0]) then Malformed
    else
      ReadOnShortens(w, 0);
      var (size, rest) := ReadOn(w, 0);
      if |rest| < 2 then Incomplete
      else if !LineEndFirst(rest) then Malformed
      else if size == 0 then Ended([])
      else if |rest| < size + 4 then Incomplete
      else if !LineEndFirst(rest[size + 2..]) then Malformed
      else Prefixed(rest[2..size + 2], Decode(rest[size + 4..]))
  }

  lemma {:induction false} ReadOnShortens(s: seq<byte>, so: nat)
    ensures |ReadOn(s, so).1| <= |s|
  {
    if s != [] && IsDigit(s[0]) {
      ReadOnShortens(s[1..], 16 * so + DigitValue(s[0]).value);
    }
  }

  lemma NotADigit()
    ensures !IsDigit(CR)
  {
  }

  lemma FrameParts(b: seq<byte>, more: seq<byte>)
    ensures var rest := [CR, LF] + b + [CR, LF] + more;
      && Frame(b) + more == Print(|b|) + rest && |rest| >= |b| + 4 && LineEndFirst(rest)
      && LineEndFirst(rest[|b| + 2..]) && rest[2..|b| + 2] == b && rest[|b| + 4..] == more
  {
    hide Print;
  }

  /** A frame in front is one chunk, or, if it is empty, the last one. */
  lemma DecodeFrame(b: seq<byte>, more: seq<byte>)
    ensures Decode(Frame(b) + more) == if b == [] then Ended([]) else Prefixed(b, Decode(more))
  {
    hide Frame, IsDigit, Print, Prefixed;
    var w, rest := Frame(b) + more, [CR, LF] + b + [CR, LF] + more;
    FrameParts(b, more);
    PrintsDigits(|b|);
    PrintedReadOn(|b|, rest);
    NotADigit();
    assert w[0] == Print(|b|)[0];
    assert ReadOn(rest, |b|) == (|b|, rest);
  }

  function DataOf(d: Decoded): seq<byte> {
    match d
    case Open(data) => data
    case Ended(data) => data
    case _ => []
  }

  /** How many buffers come before the first empty one. */
  function UntilEmpty(bs: seq<seq<byte>>): (n: nat)
    ensures n <= |bs|
  {
    if bs == [] || bs[0] == [] then 0 else 1 + UntilEmpty(bs[1..])
  }

  /** The decoder gets the buffers before the first empty one, which it takes for the end. */
  lemma {:induction false} DecodeFramed(bs: seq<seq<byte>>)
    ensures var n := UntilEmpty(bs);
      Decode(Framed(bs)) == if n < |bs| then Ended(Flatten(bs[..n])) else Open(Flatten(bs))
  {
    hide Frame, Decode, Flatten;
    if bs == [] {
      DecodeNothing();
    } else {
      var more := Framed(bs[1..]);
      DecodeFrame(bs[0], more);
      if bs[0] == [] {
        assert bs[..0] == [];
        FlattenNone();
      } else {
        var n := UntilEmpty(bs[1..]);
        DecodeFramed(bs[1..]);
        assert bs[..n + 1] == [bs[0]] + bs[1..][..n] && bs == [bs[0]] + bs[1..];
        FlattenCons(bs[0], bs[1..][..n]);
        FlattenCons(bs[0], bs[1..]);
      }
    }
  }

  lemma DecodeNothing()
    ensures Decode([]) == Open(Flatten([]))
  {
  }

  lemma FlattenNone()
    ensures Flatten<byte>([]) == []
  {
  }

  lemma FlattenCons(b: seq<byte>, bs: seq<seq<byte>>)
    ensures Flatten([b] + bs) == b + Flatten(bs)
  {
    assert ([b] + bs)[1..] == bs;
  }

  ghost predicate AllEmpty(bs: seq<seq<byte>>) { forall i :: 0 <= i < |bs| ==> bs[i] == [] }

  ghost predicate NoneBeforeData(bs: seq<seq<byte>>) {
    forall i, j :: 0 <= i < j < |bs| && bs[i] == [] ==> bs[j] == []
  }

  lemma RestIsEmpty(bs: seq<seq<byte>>, n: nat)
    requires n < |bs| && bs[n] == [] && forall i :: 0 <= i < n ==> bs[i] != []
    ensures AllEmpty(bs[n..]) <==> NoneBeforeData(bs)
  {
    if AllEmpty(bs[n..]) {
      forall i, j | 0 <= i < j < |bs| && bs[i] == [] ensures bs[j] == [] {
        assert bs[n..][j - n] == bs[j];
      }
    } else {
      var j :| 0 <= j < |bs[n..]| && bs[n..][j] != [];
      assert bs[n + j] != [] && j > 0;
    }
  }

  lemma NoneEmpty(bs: seq<seq<byte>>)
    requires forall i :: 0 <= i < |bs| ==> bs[i] != []
    ensures NoneBeforeData(bs)
  {
  }

  /** The receiver gets exactly the buffers sent, in order, if and only if no empty buffer precedes one with data. */
  lemma ChunksComeBack(bs: seq<seq<byte>>)
    ensures DataOf(Decode(Framed(bs))) == Flatten(bs) <==> NoneBeforeData(bs)
  {
    hide Decode, Framed, Flatten, AllEmpty, NoneBeforeData, UntilEmpty;
    var n := UntilEmpty(bs);
    DecodeFramed(bs);
    FirstEmpty(bs);
    if n < |bs| {
      assert bs == bs[..n] + bs[n..];
      FlattenAppend(bs[..n], bs[n..]);
      FlattenEmpty(bs[n..]);
      RestIsEmpty(bs, n);
    } else {
      NoneEmpty(bs);
    }
  }

  /** An empty buffer ahead of one with data: the receiver gets nothing and takes the stream for finished. */
  lemma EmptyBufferEndsEarly(b: seq<byte>)
    requires b != []
    ensures Decode(Framed([[], b])) == Ended([]) && Flatten([[], b]) == b
  {
    hide Decode, Framed;
    DecodeFramed([[], b]);
    assert [[], b][1..] == [b] && [b][1..] == [] && [] + (b + []) == b;
    assert [[], b][..0] == [];
  }

  lemma {:induction false} FirstEmpty(bs: seq<seq<byte>>)
    ensures var n := UntilEmpty(bs);
      (n < |bs| ==> bs[n] == []) && forall i :: 0 <= i < n ==> bs[i] != []
  {
    if bs != [] && bs[0] != [] {
      FirstEmpty(bs[1..]);
      forall i | 0 <= i < UntilEmpty(bs) ensures bs[i] != [] {
        if i > 0 {
          assert bs[i] == bs[1..][i - 1];
        }
      }
    }
  }

  lemma {:induction false} FlattenEmpty(bs: seq<seq<byte>>)
    ensures Flatten(bs) == [] <==> AllEmpty(bs)
  {
    if bs != [] {
      FlattenEmpty(bs[1..]);
      FirstAndRest(bs);
      if Flatten(bs) == [] {
        assert |Flatten(bs)| == |bs[0]| + |Flatten(bs[1..])|;
      }
    }
  }

  lemma FirstAndRest(bs: seq<seq<byte>>)
    requires bs != []
    ensures AllEmpty(bs) <==> bs[0] == [] && AllEmpty(bs[1..])
  {
    assert bs == [bs[0]] + bs[1..];
    if AllEmpty(bs) {
      assert forall i :: 0 <= i < |bs[1..]| ==> bs[1..][i] == bs[i + 1];
    }
  }

  /** The connection is taken for finished exactly when an empty buffer was sent. */
  lemma EndedExactly(bs: seq<seq<byte>>)
    ensures Decode(Framed(bs)).Ended? <==> exists i :: 0 <= i < |bs| && bs[i] == []
    ensures Decode(Framed(bs)).Ended? || Decode(Framed(bs)).Open?
  {
    hide Decode, Framed, Flatten;
    DecodeFramed(bs);
    FirstEmpty(bs);
  }
}
