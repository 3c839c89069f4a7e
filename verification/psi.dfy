/** What the two elements' program tables have in common: bit fields, and sections that end in a CRC. */
module Psi {
  import opened Bytes
  import Crc
  import CrcDetects

  const SYNC: byte := 0x47
  const FILL: byte := 0xff

  /** The upper five bits of a thirteen-bit field, alone in their byte. */
  function High5(x: nat): (r: nat)
    ensures r < 32
  {
    (x / 256) % 32
  }

  function High8(x: nat): byte { (x / 256) % 256 }

  function Low8(x: nat): byte { x % 256 }

  /** A thirteen-bit field, of which the first byte carries five bits. */
  function Pid(hi: byte, lo: byte): nat { hi % 32 * 256 + lo }

  /** A thirteen-bit field read back, behind three reserved bits. */
  lemma PidReadBack(hi: byte, x: nat)
    requires x < 8192 && hi % 32 == High5(x)
    ensures Pid(hi, Low8(x)) == x
  {
    assert x / 256 % 32 == x / 256;
  }

  /** A twelve-bit length, of which the first byte carries four bits. */
  function Length12(hi: byte, lo: byte): nat { hi % 16 * 256 + lo }

  /** The version number in the byte that also carries the current/next indicator. */
  function Version(b: byte): nat { b / 2 % 32 }

  /** The version shifted up by one, as both generators write it. */
  lemma DoubledVersion(v: nat)
    ensures 2 * v % 64 == 2 * (v % 32)
  {
    assert v == 32 * (v / 32) + v % 32;
    assert 2 * v == 64 * (v / 32) + 2 * (v % 32);
  }

  predicate PayloadStart(b: byte) { b / 64 % 2 == 1 }

  function AdaptationControl(b: byte): nat { b / 16 % 4 }

  /** Stuffing. */
  function Fill(n: nat): (r: seq<byte>)
    ensures |r| == n
  {
    seq(n, i => FILL)
  }

  // ------------------------------------------------------------- sections

  function Octet(b: byte): Crc.octet { b as Crc.octet }

  function Value(d: Crc.octet): byte { d as int }

  function Octets(s: seq<byte>): (r: seq<Crc.octet>)
    ensures |r| == |s|
  {
    seq(|s|, i requires 0 <= i < |s| => Octet(s[i]))
  }

  function Values(s: seq<Crc.octet>): (r: seq<byte>)
    ensures |r| == |s|
  {
    seq(|s|, i requires 0 <= i < |s| => Value(s[i]))
  }

  function CrcOf(section: seq<byte>): Crc.word { Crc.Register(Crc.PRESET, Octets(section)) }

  /** The CRC of a section, as both generators append it. */
  function CrcBytes(section: seq<byte>): (r: seq<byte>)
    ensures |r| == 4
  {
    Values(CrcDetects.BigEndian(CrcOf(section)))
  }

  /** The decoder of Annex A of ISO/IEC 13818-1 accepts the section, its CRC included. */
  predicate Checks(section: seq<byte>) { CrcOf(section) == 0 }

  lemma ValueIsOctet(d: Crc.octet)
    ensures Octet(Value(d)) == d
  {
  }

  lemma OctetsOfValues(s: seq<Crc.octet>)
    ensures Octets(Values(s)) == s
  {
    forall i | 0 <= i < |s| ensures Octets(Values(s))[i] == s[i] {
      ValueIsOctet(s[i]);
    }
  }

  lemma OctetsAppend(a: seq<byte>, b: seq<byte>)
    ensures Octets(a + b) == Octets(a) + Octets(b)
  {
  }

  /** Every section either generator closes checks to zero. */
  lemma SectionChecks(section: seq<byte>)
    ensures Checks(section + CrcBytes(section))
  {
    OctetsAppend(section, CrcBytes(section));
    OctetsOfValues(CrcDetects.BigEndian(CrcOf(section)));
    CrcDetects.RemainderIsZero(Crc.PRESET, Octets(section));
  }

  /** The four statements with which both generators write the CRC. */
  method PutCrc(a: array<byte>, at: nat, crc: Crc.word)
    requires at + 4 <= a.Length
    modifies a
    ensures a[..at] == old(a[..at]) && a[at + 4..] == old(a[at + 4..])
    ensures a[at..at + 4] == Values(CrcDetects.BigEndian(crc))
  {
    a[at] := Value(CrcDetects.TopOctet(crc));
    a[at + 1] := Value(CrcDetects.SecondOctet(crc));
    a[at + 2] := Value(CrcDetects.ThirdOctet(crc));
    a[at + 3] := Value(CrcDetects.LowOctet(crc));
  }

  /** get_crc32 and dtv_source_calc_crc32 on a stretch of an array. */
  method CalcCrc32(table: seq<Crc.word>, data: array<byte>, start: nat, size: nat, initial: Crc.word) returns (crc: Crc.word)
    requires Crc.IsTable(table) && start + size <= data.Length
    ensures crc == Crc.Register(initial, Octets(data[start..start + size]))
  {
    crc := Crc.Feed(table, Octets(data[start..start + size]), initial);
  }
}
