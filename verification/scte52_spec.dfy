/** The packet cipher of the AES decryptor as functions: CBC, the two termination blocks, packets and buffers. */
module Scte52 {
  type octet = bv8

  const TS_PACKET_SIZE: nat := 188
  const BLOCK: nat := 16

  type block = b: seq<octet> | |b| == 16 witness seq(16, _ => 0)
  type packet = p: seq<octet> | |p| == 188 witness seq(188, _ => 0)
  type key = seq<octet>

  /** A block cipher under every key; AES itself is not modelled. */
  datatype BlockCipher = BlockCipher(encrypt: (key, block) -> block, decrypt: (key, block) -> block)

  /** A key schedule together with the initialization vector set with it. */
  datatype Setup = Setup(cipher: BlockCipher, key: key, iv: block)

  ghost predicate Inverts(c: BlockCipher) {
    forall k: key, b: block :: c.decrypt(k, c.encrypt(k, b)) == b
  }

  function Xor(a: octet, b: octet): octet { a ^ b }

  lemma XorTwice(a: octet, b: octet)
    ensures Xor(Xor(a, b), b) == a
  {
  }

  /** Exclusive or with the front of a mask. */
  function Masked(s: seq<octet>, mask: block): (r: seq<octet>)
    requires |s| <= BLOCK
    ensures |r| == |s|
  {
    seq(|s|, i requires 0 <= i < |s| => Xor(s[i], mask[i]))
  }

  lemma MaskedTwice(s: seq<octet>, mask: block)
    requires |s| <= BLOCK
    ensures Masked(Masked(s, mask), mask) == s
  {
    hide Xor;
    forall i | 0 <= i < |s| ensures Masked(Masked(s, mask), mask)[i] == s[i] {
      XorTwice(s[i], mask[i]);
    }
  }

  // ------------------------------------------------------------------- CBC

  predicate WholeBlocks(s: seq<octet>) { |s| % 16 == 0 }

  /** Section 6.2 of NIST SP 800-38A, backwards; chain is the preceding ciphertext block. */
  function CbcDecrypt(u: Setup, chain: block, c: seq<octet>): (r: seq<octet>)
    requires WholeBlocks(c)
    ensures |r| == |c|
    decreases |c|
  {
    if c == [] then [] else Masked(u.cipher.decrypt(u.key, c[..16]), chain) + CbcDecrypt(u, c[..16], c[16..])
  }

  function CbcEncrypt(u: Setup, chain: block, p: seq<octet>): (r: seq<octet>)
    requires WholeBlocks(p)
    ensures |r| == |p|
    decreases |p|
  {
    if p == [] then []
    else
      var c: block := u.cipher.encrypt(u.key, Masked(p[..16], chain));
      c + CbcEncrypt(u, c, p[16..])
  }

  /** One block encrypted by a context just configured. */
  function EncryptOne(u: Setup, b: block): block { u.cipher.encrypt(u.key, Masked(b, u.iv)) }

  // -------------------------------------------------------------- payloads

  function FullLength(n: nat): (r: nat)
    ensures r <= n < r + 16 && r % 16 == 0
  {
    n / 16 * 16
  }

  /** The mask of what remains behind the last full block: its ciphertext, encrypted once more. */
  function ResidueMask(u: Setup, c: seq<octet>): block
    requires |c| >= 16
  {
    var full := FullLength(|c|);
    EncryptOne(u, c[full - 16..full])
  }

  function DecryptPayload(u: Setup, c: seq<octet>): (r: seq<octet>)
    ensures |r| == |c|
  {
    if |c| < BLOCK then Masked(c, EncryptOne(u, u.iv))
    else
      var full := FullLength(|c|);
      CbcDecrypt(u, u.iv, c[..full]) + Masked(c[full..], ResidueMask(u, c))
  }

  /** The encryptor the decryptor is written for. */
  function EncryptPayload(u: Setup, p: seq<octet>): (r: seq<octet>)
    ensures |r| == |p|
  {
    if |p| < BLOCK then Masked(p, EncryptOne(u, u.iv))
    else
      var full := FullLength(|p|);
      var c := CbcEncrypt(u, u.iv, p[..full]);
      c + Masked(p[full..], EncryptOne(u, c[full - 16..]))
  }

  // --------------------------------------------------------------- packets

  predicate Synced(p: packet) { p[0] == 0x47 }

  predicate Scrambled(b: octet) { b & 0xc0 != 0 }

  predicate NoPayload(b: octet) { b & 0x30 == 0x20 }

  predicate PayloadOnly(b: octet) { b & 0x30 == 0x10 }

  function Cleared(b: octet): octet { b & 0x3f }

  /** Where the payload starts, in a packet that has one. */
  function PayloadOffset(p: packet): (r: nat)
    ensures 4 <= r <= 260
  {
    if PayloadOnly(p[3]) then 4 else 5 + p[4] as int
  }

  predicate LengthFits(p: packet) { PayloadOnly(p[3]) || p[4] <= 182 }

  lemma OffsetInPacket(p: packet)
    requires LengthFits(p)
    ensures PayloadOffset(p) <= 187
  {
    if !PayloadOnly(p[3]) {
      SmallLength(p[4]);
    }
  }

  lemma SmallLength(b: octet)
    requires b <= 182
    ensures b as int <= 182
  {
  }

  /** The packet is one process_packet works on. */
  predicate Enciphered(p: packet) {
    Synced(p) && Scrambled(p[3]) && !NoPayload(p[3]) && LengthFits(p)
  }

  /** Every other packet is left as it is; this is the result code. */
  function Status(p: packet): int {
    if !Synced(p) then -1
    else if !Scrambled(p[3]) || NoPayload(p[3]) then 0
    else if !LengthFits(p) then -1
    else 0
  }

  function WithControl(p: packet, b: octet): packet { p[3 := b] }

  /** A packet with its payload replaced. */
  function WithPayload(p: packet, at: nat, payload: seq<octet>): packet
    requires at + |payload| == TS_PACKET_SIZE
  {
    p[..at] + payload
  }

  function ProcessPacket(u: Setup, p: packet): packet {
    if !Enciphered(p) then p
    else
      OffsetInPacket(p);
      var at := PayloadOffset(p);
      WithPayload(WithControl(p, Cleared(p[3])), at, DecryptPayload(u, p[at..]))
  }

  /** Whole packets from the front; what is left over stays. */
  function ProcessAll(u: Setup, d: seq<octet>): (r: seq<octet>)
    ensures |r| == |d|
    decreases |d|
  {
    if |d| < TS_PACKET_SIZE then d
    else ProcessPacket(u, d[..TS_PACKET_SIZE]) + ProcessAll(u, d[TS_PACKET_SIZE..])
  }
}
