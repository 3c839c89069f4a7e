/** What the packet cipher is for: decrypting undoes encrypting, packet by packet, and damage stays local. */
module Scte52Theorems {
  import opened Bytes
  import opened Scte52

  // ----------------------------------------------------------- round trip

  lemma {:induction false} CbcRoundTrip(u: Setup, chain: block, p: seq<octet>)
    requires Inverts(u.cipher) && WholeBlocks(p)
    ensures CbcDecrypt(u, chain, CbcEncrypt(u, chain, p)) == p
    decreases |p|
  {
    hide Masked, Inverts;
    if p != [] {
      var masked: block := Masked(p[..16], chain);
      var c: block := u.cipher.encrypt(u.key, masked);
      var all := CbcEncrypt(u, chain, p);
      assert all[..16] == c && all[16..] == CbcEncrypt(u, c, p[16..]);
      OneBack(u, masked);
      MaskedTwice(p[..16], chain);
      CbcRoundTrip(u, c, p[16..]);
      assert p == p[..16] + p[16..];
    }
  }

  lemma OneBack(u: Setup, b: block)
    requires Inverts(u.cipher)
    ensures u.cipher.decrypt(u.key, u.cipher.encrypt(u.key, b)) == b
  {
  }

  /** Full blocks, a residue behind them, or a solitary short block: every payload comes back. */
  lemma PayloadRoundTrip(u: Setup, p: seq<octet>)
    requires Inverts(u.cipher)
    ensures DecryptPayload(u, EncryptPayload(u, p)) == p
  {
    hide Masked, Inverts, CbcDecrypt, CbcEncrypt, EncryptOne;
    if |p| < BLOCK {
      MaskedTwice(p, EncryptOne(u, u.iv));
    } else {
      var full := FullLength(|p|);
      var c := CbcEncrypt(u, u.iv, p[..full]);
      var all := EncryptPayload(u, p);
      assert all[..full] == c && all[full - 16..full] == c[full - 16..];
      var mask := EncryptOne(u, c[full - 16..]);
      assert all[full..] == Masked(p[full..], mask);
      CbcRoundTrip(u, u.iv, p[..full]);
      MaskedTwice(p[full..], mask);
      assert p == p[..full] + p[full..];
    }
  }

  /** A packet in the clear that has a payload. */
  predicate Clear(p: packet) {
    Synced(p) && !Scrambled(p[3]) && !NoPayload(p[3]) && LengthFits(p)
  }

  /** The fourth byte with the scrambling control bits an encryptor sets: even key, odd key, or the reserved value. */
  function Controlled(b: octet, control: octet): octet { b | (control & 0xc0) }

  function EncryptPacket(u: Setup, p: packet, control: octet): packet {
    if !LengthFits(p) then p
    else
      OffsetInPacket(p);
      var at := PayloadOffset(p);
      WithPayload(WithControl(p, Controlled(p[3], control)), at, EncryptPayload(u, p[at..]))
  }

  lemma ControlBits(b: octet, control: octet)
    requires !Scrambled(b) && Scrambled(control)
    ensures var e := Controlled(b, control);
      Scrambled(e) && Cleared(e) == b && (NoPayload(e) <==> NoPayload(b)) && (PayloadOnly(e) <==> PayloadOnly(b))
  {
  }

  lemma Rewrapped(p: packet, b: octet, at: nat, payload: seq<octet>)
    requires 4 <= at && at + |payload| == TS_PACKET_SIZE
    ensures var e := WithPayload(WithControl(p, b), at, payload);
      e[0] == p[0] && e[3] == b && (at > 4 ==> e[4] == p[4]) && e[at..] == payload &&
      WithPayload(WithControl(e, p[3]), at, p[at..]) == p
  {
  }

  /** process_packet recovers every clear packet from its encryption, under any key and vector. */
  lemma PacketRoundTrip(u: Setup, p: packet, control: octet)
    requires Inverts(u.cipher) && Clear(p) && Scrambled(control)
    ensures ProcessPacket(u, EncryptPacket(u, p, control)) == p
    ensures Status(EncryptPacket(u, p, control)) == 0
  {
    hide Inverts, DecryptPayload, EncryptPayload, Scrambled, NoPayload, PayloadOnly, Cleared, Controlled;
    hide WithPayload, WithControl;
    ControlBits(p[3], control);
    OffsetInPacket(p);
    var at := PayloadOffset(p);
    Rewrapped(p, Controlled(p[3], control), at, EncryptPayload(u, p[at..]));
    PayloadRoundTrip(u, p[at..]);
  }

  // ------------------------------------------------------------- packet-local

  /** Cutting a stream between two packets makes no difference. */
  lemma {:induction false} SplitAtPackets(u: Setup, a: seq<octet>, b: seq<octet>)
    requires |a| % 188 == 0
    ensures ProcessAll(u, a + b) == ProcessAll(u, a) + ProcessAll(u, b)
    decreases |a|
  {
    hide ProcessPacket;
    if a == [] {
      assert a + b == b;
    } else {
      assert |a| >= 188;
      assert (a + b)[..188] == a[..188] && (a + b)[188..] == a[188..] + b;
      SplitAtPackets(u, a[188..], b);
    }
  }

  lemma ClearedIsClear(b: octet)
    ensures !Scrambled(Cleared(b))
  {
  }

  /** A second run changes nothing in a packet. */
  lemma PacketIdempotent(u: Setup, p: packet)
    ensures ProcessPacket(u, ProcessPacket(u, p)) == ProcessPacket(u, p)
  {
    hide DecryptPayload, Scrambled, Cleared, NoPayload, PayloadOnly;
    if Enciphered(p) {
      OffsetInPacket(p);
      ClearedIsClear(p[3]);
      assert ProcessPacket(u, p)[3] == Cleared(p[3]);
    }
  }

  /** Nor in a buffer. */
  lemma {:induction false} Idempotent(u: Setup, d: seq<octet>)
    ensures ProcessAll(u, ProcessAll(u, d)) == ProcessAll(u, d)
    decreases |d|
  {
    hide ProcessPacket;
    if |d| >= 188 {
      var first: seq<octet>, rest: seq<octet> := ProcessPacket(u, d[..188]), ProcessAll(u, d[188..]);
      PacketIdempotent(u, d[..188]);
      Idempotent(u, d[188..]);
      assert (first + rest)[..188] == first && (first + rest)[188..] == rest;
    }
  }

  function EncryptAll(u: Setup, ps: seq<packet>, control: octet): seq<octet> {
    if ps == [] then [] else EncryptPacket(u, ps[0], control) + EncryptAll(u, ps[1..], control)
  }

  /** So a stream of encrypted packets comes back as the clear stream. */
  lemma {:induction false} StreamRoundTrip(u: Setup, clear: seq<packet>, control: octet)
    requires Inverts(u.cipher) && Scrambled(control) && forall i :: 0 <= i < |clear| ==> Clear(clear[i])
    ensures ProcessAll(u, EncryptAll(u, clear, control)) == Flatten(clear)
  {
    hide Inverts, EncryptPacket, ProcessPacket, Scrambled, Clear;
    if clear != [] {
      StreamRoundTrip(u, clear[1..], control);
      PacketRoundTrip(u, clear[0], control);
      var d := EncryptAll(u, clear, control);
      assert d[..188] == EncryptPacket(u, clear[0], control) && d[188..] == EncryptAll(u, clear[1..], control);
    }
  }

  // ------------------------------------------------------------- locality

  function BlockAt(s: seq<octet>, j: nat): block
    requires 16 * j + 16 <= |s|
  {
    s[16 * j..16 * j + 16]
  }

  /** Each decrypted block depends on its own ciphertext block and the one before. */
  lemma {:induction false} BlockDecrypted(u: Setup, chain: block, c: seq<octet>, j: nat)
    requires WholeBlocks(c) && 16 * j + 16 <= |c|
    ensures BlockAt(CbcDecrypt(u, chain, c), j) ==
      Masked(u.cipher.decrypt(u.key, BlockAt(c, j)), if j == 0 then chain else BlockAt(c, j - 1))
    decreases |c|
  {
    hide Masked;
    var first, rest := Masked(u.cipher.decrypt(u.key, c[..16]), chain), CbcDecrypt(u, c[..16], c[16..]);
    assert CbcDecrypt(u, chain, c) == first + rest;
    if j == 0 {
      assert (first + rest)[0..16] == first && c[0..16] == c[..16];
    } else {
      BlockDecrypted(u, c[..16], c[16..], j - 1);
      var k := 16 * (j - 1);
      SlicedSecond(first, rest, k, k + 16);
      SlicedBehind(c, 16, k, k + 16);
      if j == 1 {
        assert c[0..16] == c[..16];
      } else {
        SlicedBehind(c, 16, k - 16, k);
      }
    }
  }

  /** Two payloads of one length that agree except, perhaps, in full block j. */
  predicate AgreeExceptBlock(c: seq<octet>, c': seq<octet>, j: nat) {
    && |c| == |c'| && 16 * j + 16 <= |c|
    && c[..16 * j] == c'[..16 * j] && c[16 * j + 16..] == c'[16 * j + 16..]
  }

  lemma OtherBlocksAgree(c: seq<octet>, c': seq<octet>, j: nat, m: nat)
    requires AgreeExceptBlock(c, c', j) && m != j && 16 * m + 16 <= |c|
    ensures BlockAt(c, m) == BlockAt(c', m)
  {
    if m < j {
      SlicedBefore(c, 16 * j, 16 * m, 16 * m + 16);
      SlicedBefore(c', 16 * j, 16 * m, 16 * m + 16);
    } else {
      var k := 16 * (m - j - 1);
      SlicedBehind(c, 16 * j + 16, k, k + 16);
      SlicedBehind(c', 16 * j + 16, k, k + 16);
    }
  }

  lemma PayloadBlock(u: Setup, c: seq<octet>, m: nat)
    requires 16 * m + 16 <= |c|
    ensures BlockAt(DecryptPayload(u, c), m) ==
      Masked(u.cipher.decrypt(u.key, BlockAt(c, m)), if m == 0 then u.iv else BlockAt(c, m - 1))
  {
    hide Masked, CbcDecrypt, ResidueMask;
    var full := FullLength(|c|);
    assert 16 * m + 16 <= full;
    BlockDecrypted(u, u.iv, c[..full], m);
    SlicedFirst(CbcDecrypt(u, u.iv, c[..full]), Masked(c[full..], ResidueMask(u, c)), 16 * m, 16 * m + 16);
    SlicedBefore(c, full, 16 * m, 16 * m + 16);
    if m > 0 {
      SlicedBefore(c, full, 16 * (m - 1), 16 * (m - 1) + 16);
    }
  }

  /** A changed ciphertext block changes no full block but its own and the next. */
  lemma DamageIsLocal(u: Setup, c: seq<octet>, c': seq<octet>, j: nat, m: nat)
    requires AgreeExceptBlock(c, c', j) && 16 * m + 16 <= |c| && m != j && m != j + 1
    ensures BlockAt(DecryptPayload(u, c), m) == BlockAt(DecryptPayload(u, c'), m)
  {
    hide Masked, DecryptPayload, AgreeExceptBlock;
    AgreeLength(c, c', j);
    PayloadBlock(u, c, m);
    PayloadBlock(u, c', m);
    OtherBlocksAgree(c, c', j, m);
    if m > 0 {
      OtherBlocksAgree(c, c', j, m - 1);
    }
  }

  lemma AgreeLength(c: seq<octet>, c': seq<octet>, j: nat)
    requires AgreeExceptBlock(c, c', j)
    ensures |c| == |c'| && 16 * j + 16 <= |c|
  {
  }

  lemma XorDifference(d: octet, a: octet, b: octet)
    ensures Xor(Xor(d, a), Xor(d, b)) == Xor(a, b)
  {
  }

  /** The next block changes in exactly the bits that were changed. */
  lemma DamageInNextBlock(u: Setup, c: seq<octet>, c': seq<octet>, j: nat, i: nat)
    requires AgreeExceptBlock(c, c', j) && 16 * j + 32 <= |c| && i < 16
    ensures Xor(BlockAt(DecryptPayload(u, c), j + 1)[i], BlockAt(DecryptPayload(u, c'), j + 1)[i]) ==
            Xor(BlockAt(c, j)[i], BlockAt(c', j)[i])
  {
    hide DecryptPayload, AgreeExceptBlock, Xor;
    AgreeLength(c, c', j);
    PayloadBlock(u, c, j + 1);
    PayloadBlock(u, c', j + 1);
    OtherBlocksAgree(c, c', j, j + 1);
    XorDifference(u.cipher.decrypt(u.key, BlockAt(c, j + 1))[i], BlockAt(c, j)[i], BlockAt(c', j)[i]);
  }

  /** The residue changes only when the changed block is the last full one. */
  lemma DamageInResidue(u: Setup, c: seq<octet>, c': seq<octet>, j: nat)
    requires AgreeExceptBlock(c, c', j) && 16 * j + 16 < FullLength(|c|)
    ensures DecryptPayload(u, c)[FullLength(|c|)..] == DecryptPayload(u, c')[FullLength(|c|)..]
  {
    hide Masked, CbcDecrypt;
    var full := FullLength(|c|);
    var last := full / 16 - 1;
    OtherBlocksAgree(c, c', j, last);
    assert c[full..] == c[16 * j + 16..][full - 16 * j - 16..] == c'[full..];
  }
}
