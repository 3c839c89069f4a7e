/** The classes of the decryptor: a cipher context with state, and the processor that works on packets in place. */
module Scte52Processor {
  import opened Scte52
  import opened Bytes

  datatype Operation = Encrypt | Decrypt

  /** aes_transform_openssl over an OpenSSL context: configure sets the chain, every call moves it on. */
  class AesTransform {
    const cipher: BlockCipher
    var operation: Operation
    var key: key
    var chain: block
    var configured: Flag

    constructor (c: BlockCipher)
      ensures cipher == c && configured.Off?
    {
      cipher := c;
      operation := Encrypt;
      key, chain := [], seq(16, _ => 0);
      configured := Off;
    }

    method Configure(op: Operation, k: key, iv: block)
      modifies this
      ensures operation == op && key == k && chain == iv && configured.On?
    {
      operation, key, chain, configured := op, k, iv, On;
    }

    method Reset()
      modifies this
      ensures configured.Off?
    {
      configured := Off;
    }

    ghost function Current(): Setup
      reads this
    {
      Setup(cipher, key, chain)
    }

    /** process_buffer on one block. */
    method ProcessBlock(b: block) returns (out: block)
      requires configured.On? && operation.Encrypt?
      modifies this
      ensures out == EncryptOne(old(Current()), b)
      ensures chain == out && operation == old(operation) && key == old(key) && configured.On?
    {
      out := cipher.encrypt(key, Masked(b, chain));
      chain := out;
    }

    /** process_buffer_in_place, decrypting: a block is kept as the next chain before it is overwritten. */
    method DecryptInPlace(data: array<octet>, start: nat, length: nat)
      requires configured.On? && operation.Decrypt? && start + length <= data.Length && length % 16 == 0
      modifies this, data
      ensures data[..] == Overlaid(old(data[..]), start, CbcDecrypt(old(Current()), old(chain), old(data[start..start + length])))
      ensures configured.On?
    {
      hide Masked, Overlaid, CbcDecrypt;
      ghost var u, iv, d, whole := Current(), chain, data[..], data[start..start + length];
      ghost var out: seq<octet> := [];
      var done := 0;
      OverlaidNothing(d, start);
      assert whole[0..] == whole;
      while done < length
        invariant 0 <= done <= length && done % 16 == 0 && |out| == done
        invariant configured.On? && operation.Decrypt? && key == u.key
        invariant data[..] == Overlaid(d, start, out)
        invariant CbcDecrypt(u, iv, whole) == out + CbcDecrypt(u, chain, whole[done..])
      {
        BlocksLeft(done, length);
        OverlaidElsewhere(d, start, out, start + done, start + done + 16);
        var c: block := data[start + done..start + done + 16];
        assert c == data[..][start + done..start + done + 16];
        BlockOf(d, start, length, done);
        var p: block := Masked(cipher.decrypt(key, c), chain);
        StoreBlock(data, start + done, p);
        OverlaidTwice(d, start, out, p);
        CbcUnrolled(u, chain, whole, done, out);
        out := out + p;
        chain := c;
        done := done + 16;
      }
      assert whole[length..] == [];
      CbcEnd(u, chain, out);
    }

    static lemma CbcEnd(u: Setup, chain: block, out: seq<octet>)
      ensures out + CbcDecrypt(u, chain, []) == out
    {
    }

    static lemma CbcUnrolled(u: Setup, chain: block, whole: seq<octet>, done: nat, out: seq<octet>)
      requires done + 16 <= |whole| && WholeBlocks(whole[done..])
      ensures WholeBlocks(whole[done + 16..])
      ensures var c: block := whole[done..][..16];
        out + CbcDecrypt(u, chain, whole[done..]) ==
        out + Masked(u.cipher.decrypt(u.key, c), chain) + CbcDecrypt(u, c, whole[done + 16..])
    {
      hide Masked;
      assert whole[done..][16..] == whole[done + 16..];
    }

    static lemma BlockOf(d: seq<octet>, start: nat, length: nat, done: nat)
      requires start + length <= |d| && done + 16 <= length
      ensures d[start..start + length][done..][..16] == d[start + done..start + done + 16]
    {
    }

    static lemma BlocksLeft(done: nat, length: nat)
      requires done < length && done % 16 == 0 && length % 16 == 0
      ensures done + 16 <= length && (done + 16) % 16 == 0
    {
    }

    method StoreBlock(data: array<octet>, at: nat, p: block)
      requires at + 16 <= data.Length
      modifies data
      ensures data[..] == Overlaid(old(data[..]), at, p)
    {
      for i := 0 to 16
        invariant data[..at] == old(data[..at]) && data[at + 16..] == old(data[at + 16..])
        invariant data[at..at + i] == p[..i]
      {
        data[at + i] := p[i];
      }
    }
  }

  /** scte52_processor. */
  class Processor {
    const aes: AesTransform
    var key: key
    var iv: block
    var srtbXorFactor: block

    ghost function Keys(): Setup
      reads this
    {
      Setup(aes.cipher, key, iv)
    }

    /** The cached mask belongs to the current key and vector; nothing is asked of the context. */
    ghost predicate Valid()
      reads this
    {
      srtbXorFactor == EncryptOne(Keys(), iv)
    }

    /** The processor with its first parameters. */
    constructor (c: BlockCipher, k: Scte52.key, v: block)
      ensures Valid() && fresh(aes) && Keys() == Setup(c, k, v)
    {
      aes := new AesTransform(c);
      key, iv, srtbXorFactor := k, v, v;
      new;
      SetParameters(k, v);
    }

    method ComputeSrtbXorFactor()
      modifies `srtbXorFactor, aes
      ensures Valid()
    {
      aes.Configure(Encrypt, key, iv);
      srtbXorFactor := aes.ProcessBlock(iv);
      aes.Reset();
    }

    method SetParameters(k: Scte52.key, v: block)
      modifies this, aes
      ensures Valid() && Keys() == Setup(aes.cipher, k, v)
    {
      key := k;
      iv := v;
      ComputeSrtbXorFactor();
      aes.Configure(Encrypt, key, iv);
    }

    /** The two xor loops: in place over a stretch of the packet. */
    method MaskInPlace(data: array<octet>, start: nat, length: nat, mask: block)
      requires start + length <= data.Length && length <= 16
      modifies data
      ensures data[..] == Overlaid(old(data[..]), start, Masked(old(data[start..start + length]), mask))
    {
      ghost var before := data[start..start + length];
      for i := 0 to length
        invariant data[..start] == old(data[..start]) && data[start + length..] == old(data[start + length..])
        invariant data[start + i..start + length] == before[i..]
        invariant forall k :: 0 <= k < i ==> data[start + k] == Masked(before, mask)[k]
      {
        assert data[start + i] == before[i..][0] == before[i];
        data[start + i] := Xor(data[start + i], mask[i]);
      }
    }

    /** The mask of a residue: the full block before it, encrypted by a context configured anew. */
    method MaskResidue(data: array<octet>, start: nat, length: nat)
      requires 16 <= start && start + length <= data.Length && length <= 16
      modifies data, aes
      ensures data[..] == Overlaid(old(data[..]), start,
        Masked(old(data[start..start + length]), EncryptOne(Keys(), old(data[start - 16..start]))))
    {
      hide Masked, EncryptOne, Overlaid;
      aes.Configure(Encrypt, key, iv);
      var xorFactor := aes.ProcessBlock(data[start - 16..start]);
      MaskInPlace(data, start, length, xorFactor);
      aes.Reset();
    }

    /** What is behind the last full block, if anything. */
    method DecipherResidue(data: array<octet>, start: nat, size: nat, full: nat)
      requires Valid() && start + size <= data.Length && BLOCK <= size && full == FullLength(size)
      modifies data, aes
      ensures var c := old(data[start..start + size]);
        data[..] == Overlaid(old(data[..]), start + full, Masked(c[full..], ResidueMask(Keys(), c)))
    {
      hide Masked, EncryptOne, Overlaid;
      ghost var d, c := data[..], data[start..start + size];
      SlicedTwice(d, start, size, full, size);
      SlicedTwice(d, start, size, full - 16, full);
      assert c[full..size] == c[full..];
      if size % 16 != 0 {
        MaskResidue(data, start + full, size - full);
      } else {
        NoResidue(c[full..], ResidueMask(Keys(), c));
        OverlaidNothing(d, start + full);
      }
    }

    /** The payload of an enciphered packet: the residue first, since it needs the block before it still enciphered. */
    method DecipherPayload(data: array<octet>, start: nat, size: nat)
      requires Valid() && start + size <= data.Length
      modifies data, aes
      ensures data[..] == Overlaid(old(data[..]), start, DecryptPayload(Keys(), old(data[start..start + size])))
    {
      hide Masked, EncryptOne, CbcDecrypt, Overlaid, ResidueMask;
      ghost var d, c, u := data[..], data[start..start + size], Keys();
      if size < BLOCK {
        MaskInPlace(data, start, size, srtbXorFactor);
      } else {
        var full := FullLength(size);
        ghost var residue := Masked(c[full..], ResidueMask(u, c));
        DecipherResidue(data, start, size, full);
        OverlaidElsewhere(d, start + full, residue, start, start + full);
        assert data[start..start + full] == data[..][start..start + full];
        SlicedTwice(d, start, size, 0, full);
        assert c[0..full] == c[..full];
        aes.Configure(Decrypt, key, iv);
        aes.DecryptInPlace(data, start, full);
        aes.Reset();
        SameCbc(u, aes.cipher, c[..full]);
        OverlaidBackwards(d, start, CbcDecrypt(u, iv, c[..full]), residue);
      }
    }

    lemma NoResidue(s: seq<octet>, mask: block)
      requires s == []
      ensures Masked(s, mask) == []
    {
    }

    lemma SameCbc(u: Setup, cipher: BlockCipher, c: seq<octet>)
      requires WholeBlocks(c) && cipher == u.cipher
      ensures CbcDecrypt(Setup(cipher, u.key, u.iv), u.iv, c) == CbcDecrypt(u, u.iv, c)
    {
    }

    /** process_packet on the packet that starts at at. */
    method ProcessInPlace(data: array<octet>, at: nat) returns (status: int)
      requires Valid() && at + TS_PACKET_SIZE <= data.Length
      modifies data, aes
      ensures data[..] == Overlaid(old(data[..]), at, ProcessPacket(Keys(), old(data[at..at + 188])))
      ensures status == Status(old(data[at..at + 188]))
    {
      hide DecryptPayload, Scrambled, NoPayload, PayloadOnly, Cleared, Overlaid;
      ghost var d, p: packet := data[..], data[at..at + 188];
      OverlaidSelf(d, at, at + 188);
      assert data[at] == p[0] && data[at + 3] == p[3] && data[at + 4] == p[4];
      if data[at] != 0x47 {
        return -1;
      }
      if !Scrambled(data[at + 3]) || NoPayload(data[at + 3]) {
        return 0;
      }
      var offset := 4;
      if !PayloadOnly(data[at + 3]) {
        if data[at + 4] > 182 {
          return -1;
        }
        offset := 5 + data[at + 4] as int;
      }
      DecipherPacket(data, at, offset);
      status := 0;
    }

    /** The rest of process_packet, on a packet that is enciphered. */
    method DecipherPacket(data: array<octet>, at: nat, offset: nat)
      requires Valid() && at + TS_PACKET_SIZE <= data.Length
      requires Enciphered(data[at..at + 188]) && offset == PayloadOffset(data[at..at + 188])
      modifies data, aes
      ensures data[..] == Overlaid(old(data[..]), at, ProcessPacket(Keys(), old(data[at..at + 188])))
    {
      hide DecryptPayload, Scrambled, NoPayload, PayloadOnly, Cleared, Overlaid, Valid;
      ghost var d, p: packet := data[..], data[at..at + 188];
      OffsetInPacket(p);
      ClearControl(data, at);
      ghost var front := WithControl(p, Cleared(p[3]))[..offset];
      HeaderCleared(d, at, offset, Cleared(p[3]));
      assert data[at + offset..at + 188] == data[..][at + offset..at + 188];
      DecipherPayload(data, at + offset, TS_PACKET_SIZE - offset);
      OverlaidTwice(d, at, front, DecryptPayload(Keys(), p[offset..]));
    }

    method ClearControl(data: array<octet>, at: nat)
      requires at + TS_PACKET_SIZE <= data.Length
      modifies data
      ensures data[..] == old(data[..])[at + 3 := Cleared(old(data[at + 3]))]
    {
      data[at + 3] := Cleared(data[at + 3]);
    }

    lemma HeaderCleared(d: seq<octet>, at: nat, offset: nat, b: octet)
      requires at + TS_PACKET_SIZE <= |d| && 4 <= offset <= 188
      ensures var p: packet := d[at..at + 188];
        d[at + 3 := b] == Overlaid(d, at, WithControl(p, b)[..offset]) &&
        d[at + 3 := b][at + offset..at + 188] == p[offset..]
    {
    }

    /** process_buffer: every whole packet, whatever state the context was left in. */
    method ProcessBuffer(data: array<octet>) returns (ret: int)
      requires Valid()
      modifies data, aes
      ensures data[..] == ProcessAll(Keys(), old(data[..]))
      ensures ret == if data.Length % 188 != 0 then -1 else 0
    {
      hide ProcessPacket, Status, Overlaid, ProcessAll, EncryptOne;
      ghost var u, d := Keys(), data[..];
      ret := 0;
      if data.Length % TS_PACKET_SIZE != 0 {
        ret := -1;
      }
      var at := 0;
      ghost var out: seq<octet> := [];
      assert [] + d == d && d[0..] == d;
      while TS_PACKET_SIZE <= data.Length - at
        invariant 0 <= at <= data.Length && |out| == at && data[..] == out + d[at..]
        invariant ProcessAll(u, d) == out + ProcessAll(u, d[at..])
      {
        FirstPacket(d, at, out);
        assert data[at..at + 188] == data[..][at..at + 188];
        ghost var p: seq<octet> := ProcessPacket(u, d[at..][..188]);
        var status := ProcessInPlace(data, at);
        PacketReplaced(d, at, out, p);
        AllUnrolled(u, d, at, out);
        out := out + p;
        at := at + TS_PACKET_SIZE;
      }
      AllEnd(u, d[at..]);
    }

    lemma FirstPacket(d: seq<octet>, at: nat, out: seq<octet>)
      requires |out| == at && at + 188 <= |d|
      ensures (out + d[at..])[at..at + 188] == d[at..][..188]
    {
    }

    lemma PacketReplaced(d: seq<octet>, at: nat, out: seq<octet>, p: seq<octet>)
      requires |out| == at && at + 188 <= |d| && |p| == 188
      ensures Overlaid(out + d[at..], at, p) == out + p + d[at + 188..]
    {
    }

    lemma AllEnd(u: Setup, d: seq<octet>)
      requires |d| < 188
      ensures ProcessAll(u, d) == d
    {
    }

    lemma AllUnrolled(u: Setup, d: seq<octet>, at: nat, out: seq<octet>)
      requires at + 188 <= |d|
      ensures out + ProcessAll(u, d[at..]) == out + ProcessPacket(u, d[at..][..188]) + ProcessAll(u, d[at + 188..])
    {
      hide ProcessPacket;
      assert d[at..][188..] == d[at + 188..];
    }
  }
}
