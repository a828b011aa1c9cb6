/** The Internet checksum of RFC 1071 (sections 1 and 2) as InternetAddress computes it, on a
    little-endian host. */
module Checksum {
  import opened Basics

  type Card32 = x: int | 0 <= x < 0x1_0000_0000

  /** The sum of all big-endian 16-bit words, an odd last byte padded with zero. */
  function Total(buf: seq<Byte>): nat {
    if |buf| == 0 then 0
    else if |buf| == 1 then buf[0] as int * 256
    else buf[0] as int * 256 + buf[1] as int + Total(buf[2..])
  }

  /** `r` is the 16-bit ones'-complement value of `t`: congruent modulo 0xffff, and zero (rather
      than 0xffff) only for zero. */
  predicate OnesSum(r: int, t: nat) {
    0 <= r <= 0xffff && (t - r) % 0xffff == 0 && (r == 0 <==> t == 0)
  }

  /** There is only one such value. */
  lemma OnesSumUnique(r: int, r': int, t: nat)
    requires OnesSum(r, t) && OnesSum(r', t)
    ensures r == r'
  {
    assert (r - r') % 0xffff == 0;
  }

  /** Addition of 32-bit unsigned integers. */
  function Add32(x: Card32, y: Card32): Card32 {
    (x + y) % 0x1_0000_0000
  }

  function Swap16(x: int): int
    requires 0 <= x <= 0xffff
  {
    x % 256 * 256 + x / 256
  }

  /** A 16-bit load from memory on a little-endian host. */
  function Load16(buf: seq<Byte>, i: nat): int
    requires i + 1 < |buf|
  {
    buf[i] as int + 256 * buf[i + 1] as int
  }

  lemma {:induction false} TotalStep(buf: seq<Byte>, i: nat)
    requires i % 2 == 0 && i < |buf|
    ensures Total(buf[..if i + 1 < |buf| then i + 2 else i + 1])
            == Total(buf[..i]) + buf[i] as int * 256 + if i + 1 < |buf| then buf[i + 1] as int else 0
  {
    var j := if i + 1 < |buf| then i + 2 else i + 1;
    if i == 0 {
      assert Total(buf[..0]) == 0;
      if j == 2 {
        assert buf[..2][2..] == [];
      }
    } else {
      TotalStep(buf[2..], i - 2);
      assert buf[..j][2..] == buf[2..][..j - 2];
      assert buf[..i][2..] == buf[2..][..i - 2];
    }
  }

  /** One addition, with its carry folded back. */
  function Folded(sum: Card32, w: int): Card32
    requires 0 <= w <= 0xffff
  {
    var s := Add32(sum, w);
    if s > 0xffff then s - 0xffff else s
  }

  lemma CarryFolded(sum: Card32, w: int, t: nat)
    requires OnesSum(sum, t) && 0 <= w <= 0xffff
    ensures Add32(sum, w) == sum + w && OnesSum(Folded(sum, w), t + w)
  {
  }

  /** The word at position i, as the host adds it. */
  function WordAt(buf: seq<Byte>, i: nat): int
    requires i < |buf|
  {
    Swap16(if i + 1 < |buf| then Load16(buf, i) else buf[i] as int)
  }

  /** Adding one more word. */
  lemma WordAdded(buf: seq<Byte>, i: nat, initial: nat, sum: Card32)
    requires i % 2 == 0 && i < |buf| && OnesSum(sum, initial + Total(buf[..i]))
    ensures 0 <= WordAt(buf, i) <= 0xffff
    ensures OnesSum(Folded(sum, WordAt(buf, i)), initial + Total(buf[..Min(i + 2, |buf|)]))
  {
    TotalStep(buf, i);
    SwappedLoad(buf, i);
    CarryFolded(sum, WordAt(buf, i), initial + Total(buf[..i]));
  }

  lemma SwappedLoad(buf: seq<Byte>, i: nat)
    requires i < |buf|
    ensures Swap16(buf[i] as int) == buf[i] as int * 256
    ensures i + 1 < |buf| ==> Swap16(Load16(buf, i)) == buf[i] as int * 256 + buf[i + 1] as int
  {
  }

  /** The sum after the bytes before i. */
  ghost predicate Summed(buf: seq<Byte>, i: nat, initial: Card32, sum: Card32) {
    i <= |buf| && (initial <= 0xffff ==> OnesSum(sum, initial + Total(buf[..i])))
  }

  /** Adds the word at position i and folds the carry back. */
  method AddWord(buf: seq<Byte>, i: nat, ghost initial: Card32, before: Card32) returns (sum: Card32)
    requires i % 2 == 0 && i < |buf| && Summed(buf, i, initial, before)
    ensures Summed(buf, Min(i + 2, |buf|), initial, sum)
  {
    if initial <= 0xffff {
      WordAdded(buf, i, initial, before);
    }
    SwappedLoad(buf, i);
    sum := Add32(before, WordAt(buf, i));
    if sum > 0xffff {
      sum := sum - 0xffff;
    }
  }

  /** calculateChecksum: an initial sum of at most 0xffff never overflows, and the result is the
      ones'-complement value of the initial sum plus all words. */
  method CalculateChecksum(buf: seq<Byte>, initial: Card32) returns (sum: Card32)
    requires |buf| < 0x1_0000_0000
    ensures initial <= 0xffff ==> OnesSum(sum, initial + Total(buf))
  {
    sum := initial;
    var i := 0;
    var even := |buf| - |buf| % 2;
    assert buf[..0] == [] && buf[..|buf|] == buf;
    while i < even
      invariant i % 2 == 0 && i <= even && Summed(buf, i, initial, sum)
    {
      sum := AddWord(buf, i, initial, sum);
      i := i + 2;
    }
    if i < |buf| {
      sum := AddWord(buf, i, initial, sum);
    }
  }

  /** Checksumming in parts of even length gives the checksum of the whole. */
  lemma {:induction false} TotalConcat(a: seq<Byte>, b: seq<Byte>)
    requires |a| % 2 == 0
    ensures Total(a + b) == Total(a) + Total(b)
  {
    if a == [] {
      assert a + b == b;
    } else {
      TotalConcat(a[2..], b);
      assert (a + b)[2..] == a[2..] + b;
    }
  }

  lemma SplitChecksum(a: seq<Byte>, b: seq<Byte>, initial: nat, r: int, s: int)
    requires |a| % 2 == 0 && OnesSum(r, initial + Total(a)) && OnesSum(s, r + Total(b))
    ensures OnesSum(s, initial + Total(a + b))
  {
    TotalConcat(a, b);
    CongruentTo(initial + Total(a) - r, r + Total(b) - s);
  }

  lemma CongruentTo(x: int, y: int)
    requires x % 0xffff == 0 && y % 0xffff == 0
    ensures (x + y) % 0xffff == 0
  {
  }

  /** wrapChecksum: the complement, in network byte order. */
  function WrapChecksum(sum: Card32): Card32 {
    Swap16((0xffff_ffff - sum) % 0x1_0000)
  }

  /** The bytes of a 16-bit value stored by a little-endian host. */
  function Stored(x: int): seq<Byte>
    requires 0 <= x <= 0xffff
  {
    [(x % 256) as Byte, (x / 256) as Byte]
  }

  /** Data with the zero byte that stands after an odd last one. */
  function Padded(data: seq<Byte>): seq<Byte> {
    if |data| % 2 == 0 then data else data + [0]
  }

  lemma {:induction false} PaddedTotal(data: seq<Byte>)
    ensures Total(Padded(data)) == Total(data)
  {
    if |data| >= 2 {
      PaddedTotal(data[2..]);
      assert Padded(data)[2..] == Padded(data[2..]);
    }
  }

  /** Data, padded to whole words, followed by its wrapped checksum sums to 0xffff, which is how a
      receiver checks it. */
  lemma ChecksumVerifies(data: seq<Byte>, sum: Card32, check: int)
    requires OnesSum(sum, Total(data))
    requires OnesSum(check, Total(Padded(data) + Stored(WrapChecksum(sum))))
    ensures check == 0xffff
  {
    WithComplement(data, sum);
    ComplementAdds(sum, Total(data));
    OnesSumUnique(check, 0xffff, Total(Padded(data) + Stored(WrapChecksum(sum))));
  }

  lemma WithComplement(data: seq<Byte>, sum: Card32)
    requires sum <= 0xffff
    ensures Total(Padded(data) + Stored(WrapChecksum(sum))) == Total(data) + (0xffff - sum)
  {
    PaddedTotal(data);
    StoredComplement(sum);
    TotalConcat(Padded(data), Stored(WrapChecksum(sum)));
  }

  /** The stored bytes of a wrapped checksum add up to the complement. */
  lemma StoredComplement(sum: Card32)
    requires sum <= 0xffff
    ensures Total(Stored(WrapChecksum(sum))) == 0xffff - sum
  {
    var w, c := WrapChecksum(sum), 0xffff - sum;
    assert (0xffff_ffff - sum) % 0x1_0000 == c;
    assert w % 256 == c / 256 && w / 256 == c % 256;
    assert Stored(w)[2..] == [];
  }

  lemma ComplementAdds(sum: Card32, t: nat)
    requires OnesSum(sum, t)
    ensures OnesSum(0xffff, t + (0xffff - sum))
  {
    assert t + (0xffff - sum) - 0xffff == t - sum;
  }
}
