/** The HTTP sink element in chunked mode: what it sends, and how it counts. */
module HttpSink {
  import opened Bytes
  import opened Hex
  import opened HttpSinkChunks

  /** What send() returns: -1, or how many bytes it took. */
  datatype SendResult = Failed | Took(n: nat)

  predicate Possible(r: SendResult, piece: seq<byte>) { r.Took? ==> r.n <= |piece| }

  predicate Complete(r: SendResult, piece: seq<byte>) { r.Took? && r.n == |piece| }

  /** What a send puts on the wire. */
  function Taken(piece: seq<byte>, r: SendResult): (t: seq<byte>)
    requires Possible(r, piece)
    ensures |t| == if r.Failed? then 0 else r.n
  {
    if r.Failed? then [] else piece[..r.n]
  }

  /** The sizes an unsigned int can hold. */
  const SIZES: nat := 0x1_0000_0000

  /** The size is printed as an unsigned int. */
  function SizeLine(b: seq<byte>): seq<byte> { Print(|b| % SIZES) + [CR, LF] }

  /** The size line says the buffer's size. */
  predicate Printable(b: seq<byte>) { |b| < SIZES }

  /** The socket's answers to the three sends of one buffer; those behind a failure are not asked for. */
  datatype Answers = Answers(size: SendResult, data: SendResult, end: SendResult)

  predicate PossibleAnswers(a: Answers, b: seq<byte>) {
    Possible(a.size, SizeLine(b)) && Possible(a.data, b) && Possible(a.end, [CR, LF])
  }

  predicate AllComplete(a: Answers, b: seq<byte>) {
    Complete(a.size, SizeLine(b)) && Complete(a.data, b) && Complete(a.end, [CR, LF])
  }

  predicate AnyFailed(a: Answers) { a.size.Failed? || a.data.Failed? || a.end.Failed? }

  /** The bytes of one buffer that reach the wire: up to the first failure. */
  function Emitted(b: seq<byte>, a: Answers): seq<byte>
    requires PossibleAnswers(a, b)
  {
    if a.size.Failed? then []
    else if a.data.Failed? then Taken(SizeLine(b), a.size)
    else Taken(SizeLine(b), a.size) + (Taken(b, a.data) + Taken([CR, LF], a.end))
  }

  lemma CompleteFrame(b: seq<byte>, a: Answers)
    requires PossibleAnswers(a, b) && AllComplete(a, b) && Printable(b)
    ensures Emitted(b, a) == Frame(b)
  {
    hide Print;
    assert SizeLine(b)[..|SizeLine(b)|] == SizeLine(b) && b[..|b|] == b;
    var end: seq<byte> := [CR, LF];
    assert end[..2] == end;
    assert SizeLine(b) + (b + end) == Print(|b|) + end + b + end;
  }

  /** What is on the wire after each of the three sends. */
  lemma EmittedAfter(before: seq<byte>, b: seq<byte>, a: Answers)
    requires PossibleAnswers(a, b)
    ensures var first, second, third := Taken(SizeLine(b), a.size), Taken(b, a.data), Taken([CR, LF], a.end);
      before + Emitted(b, a) ==
        if a.size.Failed? then before + first
        else if a.data.Failed? then before + first + second
        else before + first + second + third
  {
    hide SizeLine;
  }

  lemma {:induction false} FramedSnoc(bs: seq<seq<byte>>, b: seq<byte>)
    ensures Framed(bs + [b]) == Framed(bs) + Frame(b)
  {
    hide Frame;
    if bs == [] {
      assert [b][1..] == [] && [] + [b] == [b];
      assert Framed([b]) == Frame(b) + Framed([]);
    } else {
      assert (bs + [b])[1..] == bs[1..] + [b];
      FramedSnoc(bs[1..], b);
    }
  }

  class Sink {
    var httpObj: int
    var sendError: Flag
    var isBlocked: Flag
    var sentDataSize: nat
    // Since the last reset: what reached the wire, the buffers rendered, and whether every send was complete and every
    // size line right.
    ghost var wire: seq<byte>
    ghost var rendered: seq<seq<byte>>
    ghost var complete: Flag

    /** The count is the number of bytes on the wire, and complete sends leave a framed stream. */
    ghost predicate Valid()
      reads this
    {
      sentDataSize == |wire| && (complete.On? ==> wire == Framed(rendered))
    }

    constructor ()
      ensures Valid() && httpObj == -1 && sendError.Off? && wire == [] && rendered == [] && complete.On?
    {
      httpObj, sendError, isBlocked, sentDataSize := -1, Off, Off, 0;
      wire, rendered, complete := [], [], On;
    }

    /** PAUSED to PLAYING, with the socket the application has set. */
    method Reset(fd: int)
      modifies this
      ensures Valid() && httpObj == fd && sendError.Off? && wire == [] && rendered == [] && complete.On?
    {
      httpObj := fd;
      sentDataSize := 0;
      sendError := Off;
      wire, rendered, complete := [], [], On;
    }

    /** send(). */
    method Send(piece: seq<byte>, answer: SendResult) returns (sockRet: int)
      requires Possible(answer, piece)
      modifies `wire
      ensures wire == old(wire) + Taken(piece, answer)
      ensures sockRet == if answer.Failed? then -1 else answer.n
    {
      if answer.Failed? {
        sockRet := -1;
      } else {
        wire := wire + piece[..answer.n];
        sockRet := answer.n;
      }
    }

    method OnError()
      modifies `sendError, `httpObj, `isBlocked
      ensures sendError.On? && httpObj == -1 && isBlocked.Off?
    {
      sendError := On;
      httpObj := -1;
      isBlocked := Off;
    }

    /** gst_http_sink_render in chunked mode. */
    method Render(b: seq<byte>, answers: Answers)
      requires Valid() && PossibleAnswers(answers, b)
      modifies this
      ensures Valid() && isBlocked.Off?
      ensures old(httpObj) == -1 || old(sendError).On? ==>
        wire == old(wire) && rendered == old(rendered) && complete == old(complete) && sendError == old(sendError)
      ensures old(httpObj) != -1 && old(sendError).Off? ==>
        && wire == old(wire) + Emitted(b, answers) && rendered == old(rendered) + [b]
        && (sendError.On? <==> AnyFailed(answers))
        && (complete.On? <==> old(complete).On? && AllComplete(answers, b) && Printable(b))
    {
      hide Framed, Frame, SizeLine, Emitted, Taken, Printable;
      if httpObj != -1 && sendError.Off? {
        isBlocked := On;
        rendered := rendered + [b];
        FramedSnoc(old(rendered), b);
        EmittedAfter(wire, b, answers);
        if AllComplete(answers, b) && Printable(b) {
          CompleteFrame(b, answers);
        } else {
          complete := Off;
        }
        var sockRet := Send(SizeLine(b), answers.size);
        if sockRet == -1 {
          OnError();
          return;
        }
        sentDataSize := sentDataSize + sockRet;
        sockRet := Send(b, answers.data);
        if sockRet == -1 {
          OnError();
          return;
        }
        sentDataSize := sentDataSize + sockRet;
        sockRet := Send([CR, LF], answers.end);
        if sockRet == -1 {
          OnError();
          return;
        }
        sentDataSize := sentDataSize + sockRet;
      }
      isBlocked := Off;
    }
  }
}
