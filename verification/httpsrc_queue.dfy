/**
 The HTTP source's block queue in memory: the linked list, its byte count, the current block and the copying loop
 that cuts what curl hands over into blocks. Waiting for room is modelled by the streaming thread taking blocks.
*/
module HttpSrcQueue {
  import opened Bytes

  /** A queue element; in C it lives at the end of its own block. */
  class Element {
    const block: array<byte>
    const size: nat
    var next: Element?

    constructor (b: array<byte>, n: nat)
      ensures block == b && size == n && next == null
    {
      block, size, next := b, n, null;
    }
  }

  ghost function TotalSize(spine: seq<Element>): int {
    if spine == [] then 0 else spine[0].size + TotalSize(spine[1..])
  }

  lemma {:induction false} TotalSnoc(spine: seq<Element>, e: Element)
    ensures TotalSize(spine + [e]) == TotalSize(spine) + e.size
  {
    if spine == [] {
      assert [e][1..] == [] && [] + [e] == [e];
    } else {
      assert (spine + [e])[1..] == spine[1..] + [e];
      TotalSnoc(spine[1..], e);
    }
  }

  lemma {:induction false} TotalAtLeastZero(spine: seq<Element>)
    ensures TotalSize(spine) >= 0
  {
    if spine != [] {
      TotalAtLeastZero(spine[1..]);
    }
  }

  /** The bytes of the queued blocks, block by block. */
  ghost function BlocksOf(spine: seq<Element>): (r: seq<seq<byte>>)
    requires forall i :: 0 <= i < |spine| ==> spine[i].size <= spine[i].block.Length
    reads set i | 0 <= i < |spine| :: spine[i].block
    ensures |r| == |spine|
  {
    seq(|spine|, i requires 0 <= i < |spine|
      reads set j | 0 <= j < |spine| :: spine[j].block
      requires spine[i].size <= spine[i].block.Length => spine[i].block[..spine[i].size])
  }

  class Queue {
    const blocksize: nat
    var head: Element?
    var tail: Element?
    var queuedByteCount: int
    var currBlock: array?<byte>
    var currBlockSize: nat
    var currBlockOffset: nat
    var threadStarted: Flag
    var threadStopRequested: Flag
    ghost var spine: seq<Element>
    ghost var delivered: seq<byte>

    /** Head and tail form a list through all elements, each there once. */
    ghost predicate Linked()
      reads `head, `tail, `spine, spine
    {
      && (forall i, j :: 0 <= i < j < |spine| ==> spine[i] != spine[j])
      && (spine == [] ==> head == null && tail == null)
      && (spine != [] ==> head == spine[0] && tail == spine[|spine| - 1] && spine[|spine| - 1].next == null)
      && (forall i :: 0 <= i < |spine| - 1 ==> spine[i].next == spine[i + 1])
    }

    ghost predicate Sizes()
      reads `spine
    {
      forall i :: 0 <= i < |spine| ==> spine[i].size <= blocksize && spine[i].size <= spine[i].block.Length
    }

    /** The byte count is the sum of the queued blocks and at most five blocks. */
    ghost predicate Counted()
      reads `queuedByteCount, `spine
    {
      queuedByteCount == TotalSize(spine) && queuedByteCount <= 5 * blocksize
    }

    /** The current block has room left, and it is not queued. */
    ghost predicate CurrentPartial()
      reads `currBlock, `currBlockSize, `currBlockOffset, `spine
    {
      && blocksize > 0
      && (currBlock != null ==> currBlockOffset < currBlockSize == blocksize == currBlock.Length)
      && (currBlock != null ==> forall i :: 0 <= i < |spine| ==> spine[i].block != currBlock)
    }

    /** No block without bytes is queued or current. */
    ghost predicate NoEmptyBlock()
      reads `currBlock, `currBlockOffset, `spine
    {
      && (currBlock != null ==> currBlockOffset > 0)
      && (forall i :: 0 <= i < |spine| ==> spine[i].size > 0)
    }

    ghost predicate Valid()
      reads `head, `tail, `spine, `queuedByteCount, `currBlock, `currBlockSize, `currBlockOffset, spine
    {
      Linked() && Sizes() && Counted() && CurrentPartial()
    }

    ghost function Blocks(): seq<seq<byte>>
      requires Sizes()
      reads `spine, set i | 0 <= i < |spine| :: spine[i].block
    {
      BlocksOf(spine)
    }

    ghost function Current(): seq<byte>
      requires CurrentPartial()
      reads `currBlock, `currBlockSize, `currBlockOffset, `spine, currBlock
    {
      if currBlock == null then [] else currBlock[..currBlockOffset]
    }

    /** Everything the queue has accepted, in order: delivered, queued, and in the current block. */
    ghost function Contents(): seq<byte>
      requires Sizes() && CurrentPartial()
      reads `delivered, `currBlock, `currBlockSize, `currBlockOffset, `spine, currBlock, set i | 0 <= i < |spine| :: spine[i].block
    {
      delivered + Flatten(Blocks()) + Current()
    }

    constructor (size: nat)
      requires size > 0
      ensures Valid() && blocksize == size && spine == [] && tail == null && currBlock == null && delivered == []
      ensures threadStarted.Off? && threadStopRequested.Off?
    {
      blocksize := size;
      head, tail, queuedByteCount := null, null, 0;
      currBlock, currBlockSize, currBlockOffset := null, 0, 0;
      threadStarted, threadStopRequested := Off, Off;
      spine, delivered := [], [];
    }

    lemma TakenFirst(before: seq<byte>, blocks: seq<seq<byte>>, rest: seq<seq<byte>>, current: seq<byte>)
      requires blocks != [] && rest == blocks[1..]
      ensures before + Flatten(blocks) + current == (before + blocks[0]) + Flatten(rest) + current
    {
      assert before + (blocks[0] + Flatten(rest)) == (before + blocks[0]) + Flatten(rest);
    }

    /** The list operations of create. */
    method UnlinkHead() returns (nextBlock: Element?, wasFull: bool)
      requires Valid()
      modifies `head, `tail, `queuedByteCount, `spine
      ensures Valid()
      ensures old(spine) == [] ==> nextBlock == null && spine == []
      ensures old(spine) != [] ==> nextBlock == old(spine)[0] && spine == old(spine)[1..]
      ensures wasFull <==> old(spine) != [] && old(queuedByteCount) > blocksize * 4
      ensures tail == null || tail == old(tail)
    {
      nextBlock, wasFull := head, false;
      if head != null {
        head := head.next;
        if head == null {
          tail := null;
        }
      }
      if nextBlock != null {
        wasFull := queuedByteCount > blocksize * 4;
        queuedByteCount := queuedByteCount - nextBlock.size;
        spine := spine[1..];
      }
    }

    /** The locked part of create that takes the head, and the push of its bytes. */
    method TakeHead() returns (nextBlock: Element?, wasFull: bool)
      requires Valid()
      modifies `head, `tail, `queuedByteCount, `spine, `delivered
      ensures Valid() && Contents() == old(Contents()) && (old(NoEmptyBlock()) ==> NoEmptyBlock())
      ensures old(spine) == [] ==> nextBlock == null && spine == [] && delivered == old(delivered)
      ensures old(spine) != [] ==> nextBlock == old(spine)[0] && spine == old(spine)[1..]
      ensures old(spine) != [] ==> nextBlock.size <= nextBlock.block.Length
      ensures old(spine) != [] ==> delivered == old(delivered) + nextBlock.block[..nextBlock.size]
      ensures wasFull <==> old(spine) != [] && old(queuedByteCount) > blocksize * 4
      ensures tail == null || tail == old(tail)
    {
      hide Flatten, Linked, Counted;
      ghost var blocks := Blocks();
      nextBlock, wasFull := UnlinkHead();
      if nextBlock != null {
        assert blocks[0] == nextBlock.block[..nextBlock.size];
        delivered := delivered + nextBlock.block[..nextBlock.size];
        assert Blocks() == blocks[1..];
        TakenFirst(old(delivered), blocks, Blocks(), Current());
      }
    }

    lemma AppendedLast(before: seq<byte>, blocks: seq<seq<byte>>, more: seq<byte>)
      ensures before + Flatten(blocks + [more]) + [] == (before + Flatten(blocks) + []) + more
    {
      FlattenSnoc(blocks, more);
      assert before + (Flatten(blocks) + more) + [] == (before + Flatten(blocks) + []) + more;
    }

    /** The pointers of the new last element's neighbours. */
    method SetPointers(newBlock: Element)
      requires Linked() && newBlock !in spine && newBlock.next == null
      modifies `head, `tail, `spine, tail
      ensures Linked() && spine == old(spine) + [newBlock] && tail == newBlock
    {
      if tail != null {
        tail.next := newBlock;
      } else {
        head := newBlock;
      }
      tail := newBlock;
      spine := spine + [newBlock];
    }

    /** The list operations of buffer_ready. */
    method LinkTail(newBlock: Element)
      requires Valid() && newBlock !in spine && newBlock.next == null
      requires newBlock.size <= blocksize && newBlock.size <= newBlock.block.Length && newBlock.block != currBlock
      requires queuedByteCount <= 4 * blocksize
      modifies `head, `tail, `queuedByteCount, `spine, tail
      ensures Valid() && spine == old(spine) + [newBlock] && tail == newBlock
    {
      hide TotalSize, Linked;
      queuedByteCount := queuedByteCount + newBlock.size;
      TotalSnoc(spine, newBlock);
      SetPointers(newBlock);
    }

    /** The locked part of buffer_ready that makes a full block an element of the queue. */
    method Append(block: array<byte>, size: nat)
      requires Valid() && currBlock == null && size <= blocksize && size <= block.Length && queuedByteCount <= 4 * blocksize
      modifies `head, `tail, `queuedByteCount, `spine, tail
      ensures Valid() && Contents() == old(Contents()) + block[..size] && fresh(tail)
      ensures |spine| == |old(spine)| + 1 && spine[..|spine| - 1] == old(spine) && fresh(spine[|spine| - 1])
      ensures spine[|spine| - 1].block == block && spine[|spine| - 1].size == size
    {
      hide Flatten, Linked, Counted;
      ghost var blocks := Blocks();
      var newBlock := new Element(block, size);
      assert newBlock !in spine;
      LinkTail(newBlock);
      assert Blocks() == blocks + [block[..size]];
      AppendedLast(delivered, blocks, block[..size]);
    }

    /** The wait for not-full: it ends when the streaming thread has taken a block, and perhaps after a stop was
        requested. */
    method WaitNotFull()
      requires Valid() && spine != []
      modifies `head, `tail, `queuedByteCount, `spine, `delivered, `threadStopRequested
      ensures Valid() && Contents() == old(Contents()) && (old(NoEmptyBlock()) ==> NoEmptyBlock())
      ensures spine == old(spine)[1..] && (tail == null || tail == old(tail))
    {
      hide Flatten, BlocksOf, TotalSize, Linked, Counted, NoEmptyBlock;
      var _, _ := TakeHead();
      if * {
        threadStopRequested := On;
      }
    }

    /** gst_http_src_buffer_ready: FALSE only when a stop was requested while the queue was full. */
    method BufferReady(block: array<byte>, size: nat) returns (rc: bool)
      requires Valid() && currBlock == null && size <= blocksize && size <= block.Length
      modifies `head, `tail, `queuedByteCount, `spine, `delivered, `threadStopRequested, tail
      ensures Valid() && (old(NoEmptyBlock()) && size > 0 ==> NoEmptyBlock())
      ensures rc ==> Contents() == old(Contents()) + block[..size]
      ensures !rc ==> Contents() == old(Contents()) && threadStopRequested.On?
      ensures tail == null || tail == old(tail) || fresh(tail)
    {
      hide Linked, Flatten, TotalSize;
      while queuedByteCount > blocksize * 4
        invariant Valid() && Contents() == old(Contents()) && (old(NoEmptyBlock()) ==> NoEmptyBlock())
        invariant tail == null || tail == old(tail)
        decreases |spine|
      {
        if threadStopRequested.On? {
          return false;
        }
        CountedEmpty();
        WaitNotFull();
        if threadStopRequested.On? {
          return false;
        }
      }
      ghost var queue := spine;
      Append(block, size);
      AppendedOnly(queue);
      rc := true;
    }

    lemma CountedEmpty()
      requires Counted() && queuedByteCount > 0
      ensures spine != []
    {
    }

    lemma AppendedOnly(queue: seq<Element>)
      requires |spine| == |queue| + 1 && spine[..|queue|] == queue
      ensures forall e :: e in spine ==> e in queue || e == spine[|queue|]
      ensures forall i :: 0 <= i < |queue| ==> spine[i] == queue[i]
    {
      assert spine == spine[..|queue|] + [spine[|queue|]];
    }

    /** The block to fill: the current one, taken, or a new one. */
    method TakeBlock() returns (block: array<byte>, offset: nat)
      requires Valid()
      modifies `currBlock
      ensures Valid() && currBlock == null && block.Length == blocksize && offset < blocksize
      ensures old(currBlock) != null ==> block == old(currBlock) && offset == currBlockOffset
      ensures old(currBlock) == null ==> fresh(block) && offset == 0
      ensures block[..offset] == old(Current())
      ensures forall i :: 0 <= i < |spine| ==> spine[i].block != block
      ensures old(NoEmptyBlock()) ==> NoEmptyBlock()
    {
      if currBlock != null {
        block, offset := currBlock, currBlockOffset;
        currBlock := null;
      } else {
        block, offset := new byte[blocksize](_ => 0), 0;
      }
    }

    static method Copy(block: array<byte>, at: nat, data: array<byte>, from: nat, n: nat)
      requires at + n <= block.Length && from + n <= data.Length && block != data
      modifies block
      ensures block[..at + n] == old(block[..at]) + data[from..from + n]
    {
      for i := 0 to n
        invariant block[..at] == old(block[..at])
        invariant block[at..at + i] == data[from..from + i]
      {
        block[at + i] := data[from + i];
      }
      assert block[..at + n] == block[..at] + block[at..at + n];
    }

    /** The first half of a turn: a block is taken and filled as far as the data goes. */
    method FillBlock(data: array<byte>, from: nat) returns (block: array<byte>, offset: nat, copied: nat)
      requires Valid() && from < data.Length && data != currBlock
      modifies `currBlock, currBlock
      ensures Valid() && currBlock == null && block.Length == blocksize && 0 < offset <= blocksize
      ensures 0 < copied <= data.Length - from && (offset < blocksize ==> from + copied == data.Length)
      ensures block[..offset] == old(Current()) + data[from..from + copied] && data[..] == old(data[..])
      ensures block == old(currBlock) || fresh(block)
      ensures forall i :: 0 <= i < |spine| ==> spine[i].block != block
      ensures Blocks() == old(Blocks()) && (old(NoEmptyBlock()) ==> NoEmptyBlock())
    {
      hide Linked, Counted;
      block, offset := TakeBlock();
      var blockAvail := blocksize - offset;
      var copySize := data.Length - from;
      if copySize > blockAvail {
        copySize := blockAvail;
      }
      Copy(block, offset, data, from, copySize);
      offset := offset + copySize;
      copied := copySize;
    }

    /** The second half where there is room left in the block. */
    method KeepBlock(block: array<byte>, offset: nat)
      requires Valid() && currBlock == null && block.Length == blocksize && 0 < offset < blocksize
      requires forall i :: 0 <= i < |spine| ==> spine[i].block != block
      modifies `currBlock, `currBlockSize, `currBlockOffset
      ensures Valid() && currBlock == block && Contents() == delivered + Flatten(Blocks()) + block[..offset]
      ensures old(NoEmptyBlock()) ==> NoEmptyBlock()
    {
      hide Linked, Counted, Flatten;
      currBlock := block;
      currBlockSize := blocksize;
      currBlockOffset := offset;
    }

    /** The second half: the block is kept as the current one, or queued when it is full. */
    method PassOn(block: array<byte>, offset: nat) returns (ok: bool, ghost lost: seq<byte>)
      requires Valid() && currBlock == null && block.Length == blocksize && 0 < offset <= blocksize
      requires forall i :: 0 <= i < |spine| ==> spine[i].block != block
      modifies this, tail
      ensures Valid() && (old(NoEmptyBlock()) ==> NoEmptyBlock()) && threadStarted == old(threadStarted)
      ensures ok ==> Contents() == old(Contents()) + block[..offset]
      ensures !ok ==> threadStopRequested.On? && lost == block[..offset] && Contents() == old(Contents())
      ensures if offset < blocksize then ok && currBlock == block else currBlock == null
      ensures tail == null || tail == old(tail) || fresh(tail)
    {
      hide Linked, Counted, NoEmptyBlock, Flatten, BlocksOf, TotalSize;
      lost := [];
      if offset < blocksize {
        assert delivered + Flatten(Blocks()) + [] == delivered + Flatten(Blocks());
        KeepBlock(block, offset);
        ok := true;
      } else {
        ok := BufferReady(block, offset);
        if !ok {
          lost := block[..offset];
        }
      }
    }

    /** One turn of the copying loop: the filled block is kept as the current one, or queued when it is full. */
    method CopyTurn(data: array<byte>, from: nat) returns (ok: bool, copied: nat, ghost lost: seq<byte>)
      requires Valid() && from < data.Length && data != currBlock
      modifies this, tail, currBlock
      ensures Valid() && (old(NoEmptyBlock()) ==> NoEmptyBlock())
      ensures 0 < copied <= data.Length - from && data[..] == old(data[..])
      ensures ok ==> Contents() == old(Contents()) + data[from..from + copied]
      ensures ok && currBlock != null ==> from + copied == data.Length
      ensures !ok ==> threadStopRequested.On? && Contents() + lost == old(Contents()) + data[from..from + copied]
      ensures !ok ==> lost != [] && |lost| == blocksize && currBlock == null
      ensures |old(Current())| + data.Length - from < blocksize ==> ok && currBlock != null && copied == data.Length - from
      ensures tail == null || tail == old(tail) || fresh(tail)
      ensures currBlock == null || currBlock == old(currBlock) || fresh(currBlock)
      ensures threadStarted == old(threadStarted)
    {
      hide Valid, NoEmptyBlock, Flatten, BlocksOf, TotalSize, Sizes, CurrentPartial;
      assert Sizes() && CurrentPartial() by { ValidParts(); }
      ghost var blocks, current := Blocks(), Current();
      var block, offset;
      block, offset, copied := FillBlock(data, from);
      assert offset == |block[..offset]| == |current| + copied;
      Grouped(delivered, Flatten(blocks), current, data[from..from + copied]);
      ok, lost := PassOn(block, offset);
    }

    lemma ValidParts()
      requires Valid()
      ensures Sizes() && CurrentPartial()
    {
    }

    static lemma Grouped(a: seq<byte>, b: seq<byte>, c: seq<byte>, d: seq<byte>)
      ensures (a + b + []) + (c + d) == (a + b + c) + d && a + b + (c + d) == (a + b + c) + d
    {
    }

    /** gst_http_src_data_received with data. What is accepted is behind what was there before; once a stop is
        requested a full block may be lost, and the rest of the data is not looked at. */
    method DataReceived(data: array<byte>) returns (consumed: nat, ghost accepted: nat, ghost lost: seq<byte>)
      requires Valid() && data != currBlock
      modifies this, tail, currBlock
      ensures Valid() && (old(NoEmptyBlock()) ==> NoEmptyBlock()) && accepted <= data.Length && data[..] == old(data[..])
      ensures Contents() + lost == old(Contents()) + data[..accepted] && (lost == [] || |lost| == blocksize)
      ensures old(threadStarted).On? && old(threadStopRequested).Off? && (threadStopRequested.Off? || lost == []) ==>
        accepted == data.Length && consumed == data.Length && lost == []
      ensures old(threadStarted).Off? || old(threadStopRequested).On? ==> accepted == 0 && lost == []
      ensures old(threadStarted).On? ==> consumed == data.Length
      ensures old(threadStarted).Off? ==> consumed == 0
      ensures old(threadStarted).On? && old(threadStopRequested).Off? && 0 < data.Length < blocksize - |old(Current())| ==>
        currBlock != null
    {
      hide Linked, Counted, CurrentPartial, NoEmptyBlock, Flatten;
      var recvSize, recvOffset := data.Length, 0;
      consumed, accepted, lost := 0, 0, [];
      assert data[..0] == [] && Contents() + [] == Contents();
      if threadStarted.On? && threadStopRequested.Off? {
        while recvOffset < recvSize
          invariant Valid() && (old(NoEmptyBlock()) ==> NoEmptyBlock()) && data[..] == old(data[..])
          invariant recvOffset <= recvSize && consumed == accepted == recvOffset && threadStarted.On?
          invariant Contents() == old(Contents()) + data[..recvOffset]
          invariant tail == null || tail == old(tail) || fresh(tail)
          invariant currBlock == null || currBlock == old(currBlock) || fresh(currBlock)
          invariant recvOffset == 0 || |old(Current())| + recvSize >= blocksize || (recvOffset == recvSize && currBlock != null)
          invariant recvOffset == 0 ==> Current() == old(Current())
        {
          var ok, copied;
          ghost var dropped;
          ok, copied, dropped := CopyTurn(data, recvOffset);
          assert data[..recvOffset] + data[recvOffset..recvOffset + copied] == data[..recvOffset + copied];
          Associates(old(Contents()), data[..recvOffset], data[recvOffset..recvOffset + copied]);
          recvOffset := recvOffset + copied;
          accepted := recvOffset;
          if ok {
            consumed := consumed + copied;
          } else {
            consumed, lost := 0, dropped;
            break;
          }
        }
        assert lost == [] ==> data[..recvOffset] == data[..recvOffset] && Contents() + [] == Contents();
      }
      if consumed == 0 && recvSize != 0 && threadStarted.On? && threadStopRequested.On? {
        consumed := recvSize;
      }
    }

    /** The flow timer's call without data: the current block, if any, is queued as it is. */
    method FlowTimerExpired() returns (ghost lost: seq<byte>)
      requires Valid()
      modifies this, tail
      ensures Valid() && currBlock == null && (old(NoEmptyBlock()) ==> NoEmptyBlock())
      ensures Contents() + lost == old(Contents())
      ensures threadStopRequested.Off? ==> lost == []
    {
      hide Linked, Counted, Flatten;
      lost := [];
      ghost var blocks, before, current := Blocks(), delivered, Current();
      if currBlock != null {
        var block, blockOffset := TakeBlock();
        assert Blocks() == blocks;
        var ok := BufferReady(block, blockOffset);
        if !ok {
          lost := block[..blockOffset];
        }
        Grouped(before, Flatten(blocks), [], current);
      }
      assert [] + current == current && Contents() + [] == Contents();
    }

    /** gst_http_src_flush_queue: the queue is emptied. The current block, if any, stays, with its offset set to
        zero. */
    method FlushQueue()
      requires Valid()
      modifies `head, `tail, `queuedByteCount, `currBlockOffset, `spine
      ensures Valid() && spine == [] && queuedByteCount == 0 && currBlock == old(currBlock)
      ensures Contents() == delivered
      ensures NoEmptyBlock() <==> currBlock == null
    {
      while head != null
        invariant head == (if spine == [] then null else spine[0])
        invariant spine != [] ==> spine[|spine| - 1].next == null
        invariant forall i :: 0 <= i < |spine| - 1 ==> spine[i].next == spine[i + 1]
        decreases |spine|
      {
        head := head.next;
        spine := spine[1..];
      }
      head := null;
      tail := null;
      queuedByteCount := 0;
      currBlockOffset := 0;
      assert Blocks() == [] && delivered + [] + [] == delivered;
    }
  }

  /** Data shorter than a block, then a flush: an empty block stays behind as the current one. */
  method FlushAfterPartialBlock(blocksize: nat, data: array<byte>) returns (q: Queue)
    requires 0 < data.Length < blocksize
    ensures q.Valid() && q.spine == [] && q.currBlock != null && q.currBlockOffset == 0 && !q.NoEmptyBlock()
  {
    hide Flatten, TotalSize, BlocksOf, Queue.Linked, Queue.Counted;
    q := new Queue(blocksize);
    q.threadStarted := On;
    var _, _, _ := q.DataReceived(data);
    q.FlushQueue();
  }
}
