/** Socket addresses in blocks of their family's size: packing an array of sockaddr_storage and
    unpacking such blocks. */
module SockaddrPack {
  import opened Basics

  const AF_INET := 2
  const AF_INET6 := 10

  /** A sockaddr_storage; its first two bytes hold the family, low byte first. */
  type Storage = s: seq<Byte> | |s| == 128 witness seq(128, _ => 0)

  function Family(s: seq<Byte>): int
    requires |s| >= 2
  {
    s[0] as int + 256 * s[1] as int
  }

  /** The size of a family's sockaddr; 0 for a family the packers do not know. */
  function SizeOf(family: int): nat {
    if family == AF_INET then 16 else if family == AF_INET6 then 28 else 0
  }

  function Size(s: seq<Byte>): nat
    requires |s| >= 2
  {
    SizeOf(Family(s))
  }

  /** Stored low byte first, family 2 takes 16 bytes and family 10 takes 28; no other is known. */
  lemma SizesAre(s: Storage)
    ensures s[..2] == [2, 0] ==> Size(s) == 16
    ensures s[..2] == [10, 0] ==> Size(s) == 28
    ensures s[..2] != [2, 0] && s[..2] != [10, 0] ==> Size(s) == 0
  {
    assert s[..2] == [s[0], s[1]];
    assert [s[0], s[1]] == [2, 0] <==> s[0] == 2 && s[1] == 0;
    assert [s[0], s[1]] == [10, 0] <==> s[0] == 10 && s[1] == 0;
  }

  predicate AllKnown(addrs: seq<Storage>) {
    forall i :: 0 <= i < |addrs| ==> Size(addrs[i]) > 0
  }

  /** The part of an address that counts. */
  function Record(s: Storage): seq<Byte> {
    s[..Size(s)]
  }

  function Packed(addrs: seq<Storage>): seq<Byte> {
    if addrs == [] then [] else Packed(addrs[..|addrs| - 1]) + Record(addrs[|addrs| - 1])
  }

  lemma PackedNext(addrs: seq<Storage>, i: nat)
    requires i < |addrs|
    ensures Packed(addrs[..i + 1]) == Packed(addrs[..i]) + Record(addrs[i])
  {
    assert addrs[..i + 1][..i] == addrs[..i];
  }

  lemma {:induction false} PackedPart(addrs: seq<Storage>, i: nat)
    requires i <= |addrs|
    ensures |Packed(addrs[..i])| <= |Packed(addrs)|
    decreases |addrs| - i
  {
    if i < |addrs| {
      PackedNext(addrs, i);
      PackedPart(addrs, i + 1);
    } else {
      assert addrs[..i] == addrs;
    }
  }

  /** memcpy */
  method Copy(out: array<Byte>, at: nat, src: seq<Byte>)
    requires at + |src| <= out.Length
    modifies out
    ensures out[..at] == old(out[..at]) && out[at..at + |src|] == src
    ensures out[at + |src|..] == old(out[at + |src|..])
  {
    for k := 0 to |src|
      invariant forall j :: 0 <= j < k ==> out[at + j] == src[j]
      invariant forall j :: 0 <= j < out.Length && !(at <= j < at + k) ==> out[j] == old(out[j])
    {
      out[at + k] := src[k];
    }
  }

  /** The packer behind sctp_bindx() and sctp_connectx(): writes through a moving pointer and stops
      the program at an unknown family. */
  method PackInto(addrs: seq<Storage>, out: array<Byte>) returns (aborted: bool)
    requires |Packed(addrs)| <= out.Length
    modifies out
    ensures aborted <==> !AllKnown(addrs)
    ensures !aborted ==> out[..|Packed(addrs)|] == Packed(addrs)
    ensures out[|Packed(addrs)|..] == old(out[|Packed(addrs)|..])
  {
    var a := 0;
    ghost var total := |Packed(addrs)|;
    for i := 0 to |addrs|
      invariant a == |Packed(addrs[..i])| <= total
      invariant out[..a] == Packed(addrs[..i]) && AllKnown(addrs[..i])
      invariant out[total..] == old(out[total..])
    {
      if Size(addrs[i]) == 0 {
        return true;
      }
      PackedNext(addrs, i);
      PackedPart(addrs, i + 1);
      CopyRecord(out, a, addrs[i], total);
      a := a + Size(addrs[i]);
    }
    assert addrs[..|addrs|] == addrs;
    return false;
  }

  method CopyRecord(out: array<Byte>, at: nat, s: Storage, ghost total: nat)
    requires at + Size(s) <= total <= out.Length
    modifies out
    ensures out[..at + Size(s)] == old(out[..at]) + Record(s)
    ensures out[total..] == old(out[total..])
  {
    ghost var n := at + Size(s);
    ghost var rest := out[n..];
    Copy(out, at, Record(s));
    assert out[..n] == out[..at] + out[at..n];
    assert out[n..] == rest;
    assert out[total..] == out[n..][total - n..] && rest[total - n..] == old(out[total..]);
  }

  /** The other packer counts first, and allocates exactly what it fills; nothing for an empty list. */
  method Pack(addrs: seq<Storage>) returns (aborted: bool, packed: array?<Byte>)
    ensures aborted <==> !AllKnown(addrs)
    ensures !aborted ==> (packed == null <==> addrs == [])
    ensures packed != null ==> fresh(packed) && packed[..] == Packed(addrs)
  {
    var required := 0;
    for i := 0 to |addrs|
      invariant required == |Packed(addrs[..i])| && AllKnown(addrs[..i])
      invariant i > 0 ==> required > 0
    {
      if Size(addrs[i]) == 0 {
        return true, null;
      }
      PackedNext(addrs, i);
      required := required + Size(addrs[i]);
    }
    assert addrs[..|addrs|] == addrs;
    if required == 0 {
      return false, null;
    }
    var out := new Byte[required];
    var failed := PackInto(addrs, out);
    return failed, out;
  }

  // ----- Unpacking -----

  /** n blocks lie within the buffer, up to the first of an unknown family. */
  predicate Fits(buf: seq<Byte>, n: nat)
    decreases n
  {
    n > 0 ==> 2 <= |buf| && Size(buf) <= |buf| && (Size(buf) > 0 ==> Fits(buf[Size(buf)..], n - 1))
  }

  /** The blocks before the first of an unknown family. */
  function Blocks(buf: seq<Byte>, n: nat): (blocks: seq<seq<Byte>>)
    requires Fits(buf, n)
    ensures |blocks| <= n && forall i :: 0 <= i < |blocks| ==> 0 < |blocks[i]| <= 28
    decreases n
  {
    if n == 0 || Size(buf) == 0 then []
    else [buf[..Size(buf)]] + Blocks(buf[Size(buf)..], n - 1)
  }

  /** A storage after memcpy of a block onto its start. */
  function Overwritten(s: Storage, block: seq<Byte>): Storage
    requires |block| <= 128
  {
    block + s[|block|..]
  }

  /** The blocks from the i-th on are still to be unpacked. */
  ghost predicate Left(buf: seq<Byte>, n: nat, blocks: seq<seq<Byte>>, i: nat) {
    Fits(buf, n) && i <= |blocks| && Blocks(buf, n) == blocks[i..]
  }

  lemma NextBlock(buf: seq<Byte>, n: nat, blocks: seq<seq<Byte>>, i: nat)
    requires n > 0 && Left(buf, n, blocks, i) && Size(buf) > 0
    ensures i < |blocks| && blocks[i] == buf[..Size(buf)] && Left(buf[Size(buf)..], n - 1, blocks, i + 1)
  {
    assert blocks[i..][0] == blocks[i] && blocks[i..][1..] == blocks[i + 1..];
  }

  /** Of the storages, the first i have been overwritten by their blocks. */
  ghost predicate Unpacked(olds: seq<Storage>, news: seq<Storage>, blocks: seq<seq<Byte>>, i: nat) {
    && i <= |blocks| && i <= |olds| == |news| && (forall j :: 0 <= j < i ==> |blocks[j]| <= 128)
    && (forall j :: 0 <= j < i ==> news[j] == Overwritten(olds[j], blocks[j]))
    && forall j :: i <= j < |olds| ==> news[j] == olds[j]
  }

  lemma UnpackedNext(olds: seq<Storage>, news: seq<Storage>, blocks: seq<seq<Byte>>, i: nat)
    requires Unpacked(olds, news, blocks, i) && i < |blocks| && i < |olds| && |blocks[i]| <= 128
    ensures Unpacked(olds, news[i := Overwritten(news[i], blocks[i])], blocks, i + 1)
  {
  }

  /** memcpy of a block onto the start of the i-th storage. */
  method CopyInto(newArray: array<Storage>, i: nat, block: seq<Byte>)
    requires i < newArray.Length && |block| <= 128
    modifies newArray
    ensures newArray[..] == old(newArray[..])[i := Overwritten(old(newArray[i]), block)]
  {
    newArray[i] := Overwritten(newArray[i], block);
  }

  method Unpack(buf: seq<Byte>, n: nat, newArray: array<Storage>) returns (aborted: bool)
    requires Fits(buf, n) && n <= newArray.Length
    modifies newArray
    ensures aborted <==> |Blocks(buf, n)| < n
    ensures Unpacked(old(newArray[..]), newArray[..], Blocks(buf, n), |Blocks(buf, n)|)
  {
    var addrArray := buf;
    ghost var blocks := Blocks(buf, n);
    assert blocks[0..] == blocks;
    for i := 0 to n
      invariant Left(addrArray, n - i, blocks, i) && Unpacked(old(newArray[..]), newArray[..], blocks, i)
    {
      var size := Size(addrArray);
      if size == 0 {
        return true;
      }
      NextBlock(addrArray, n - i, blocks, i);
      UnpackedNext(old(newArray[..]), newArray[..], blocks, i);
      CopyInto(newArray, i, addrArray[..size]);
      addrArray := addrArray[size..];
    }
    return false;
  }

  // ----- Round trip -----

  lemma {:induction false} PackedCons(s: Storage, addrs: seq<Storage>)
    ensures Packed([s] + addrs) == Record(s) + Packed(addrs)
  {
    if addrs == [] {
      assert [s] + addrs == [] + [s];
      PackedAppend([], s);
    } else {
      var n := |addrs| - 1;
      var front, last := addrs[..n], addrs[n];
      assert front + [last] == addrs;
      assert [s] + addrs == [s] + front + [last];
      PackedCons(s, front);
      PackedAppend([s] + front, last);
      PackedAppend(front, last);
      Regroup(Record(s), Packed(front), Record(last));
    }
  }

  lemma Regroup(a: seq<Byte>, b: seq<Byte>, c: seq<Byte>)
    ensures a + b + c == a + (b + c)
  {
  }

  lemma PackedAppend(addrs: seq<Storage>, s: Storage)
    ensures Packed(addrs + [s]) == Packed(addrs) + Record(s)
  {
    assert (addrs + [s])[..|addrs|] == addrs;
  }

  lemma FirstBlock(s: Storage, rest: seq<Byte>)
    requires Size(s) > 0
    ensures var buf := Record(s) + rest;
            2 <= |buf| && Size(buf) == Size(s) && buf[..Size(s)] == Record(s) && buf[Size(s)..] == rest
  {
    var buf := Record(s) + rest;
    assert buf[0] == s[0] && buf[1] == s[1];
  }

  lemma BlocksCons(s: Storage, rest: seq<Byte>, n: nat)
    requires Size(s) > 0 && Fits(rest, n)
    ensures Fits(Record(s) + rest, n + 1) && Blocks(Record(s) + rest, n + 1) == [Record(s)] + Blocks(rest, n)
  {
    FirstBlock(s, rest);
  }

  function Records(addrs: seq<Storage>): seq<seq<Byte>> {
    if addrs == [] then [] else [Record(addrs[0])] + Records(addrs[1..])
  }

  lemma {:induction false} RecordsAt(addrs: seq<Storage>)
    ensures |Records(addrs)| == |addrs| && forall i :: 0 <= i < |addrs| ==> Records(addrs)[i] == Record(addrs[i])
  {
    if addrs != [] {
      RecordsAt(addrs[1..]);
    }
  }

  lemma {:induction false} Unpacks(addrs: seq<Storage>, rest: seq<Byte>, buf: seq<Byte>)
    requires AllKnown(addrs) && buf == Packed(addrs) + rest
    ensures Fits(buf, |addrs|) && Blocks(buf, |addrs|) == Records(addrs)
    decreases |addrs|
  {
    if addrs != [] {
      var tail := Packed(addrs[1..]) + rest;
      Unpacks(addrs[1..], rest, tail);
      BlocksCons(addrs[0], tail, |addrs| - 1);
      FirstRecord(addrs, rest);
    }
  }

  lemma FirstRecord(addrs: seq<Storage>, rest: seq<Byte>)
    requires addrs != []
    ensures Packed(addrs) + rest == Record(addrs[0]) + (Packed(addrs[1..]) + rest)
  {
    assert [addrs[0]] + addrs[1..] == addrs;
    PackedCons(addrs[0], addrs[1..]);
    Regroup(Record(addrs[0]), Packed(addrs[1..]), rest);
  }

  /** Unpacking what was packed gives each address on its family's size and leaves the rest of the
      storage alone; bytes after the packed ones are not looked at. */
  lemma RoundTrip(addrs: seq<Storage>, rest: seq<Byte>, olds: seq<Storage>)
    requires AllKnown(addrs) && |olds| == |addrs|
    ensures var buf := Packed(addrs) + rest;
            && Fits(buf, |addrs|) && |Blocks(buf, |addrs|)| == |addrs|
            && forall i :: 0 <= i < |addrs| ==>
                 var s := Overwritten(olds[i], Blocks(buf, |addrs|)[i]);
                 s[..Size(addrs[i])] == addrs[i][..Size(addrs[i])] && s[Size(addrs[i])..] == olds[i][Size(addrs[i])..]
  {
    Unpacks(addrs, rest, Packed(addrs) + rest);
    RecordsAt(addrs);
  }
}
