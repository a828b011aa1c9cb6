/** File transfer in blocks over a channel that keeps message boundaries: the server's send and
    receive loops and the client's. */
module Tftp {
  import opened Basics

  datatype Kind = ReadRequest | WriteRequest | Data | Ack | Error

  /** The two header bytes and what follows them. */
  datatype Message = Message(kind: Kind, code: nat, data: seq<Byte>)

  /** The room for data in a packet. */
  const BLOCK_SIZE := 2046

  // ----- Sending -----

  /** What fread() yields at a position; it meets the end of the file if that is less than a block. */
  function Block(file: seq<Byte>, pos: nat): seq<Byte>
    requires pos <= |file|
  {
    file[pos..Min(pos + BLOCK_SIZE, |file|)]
  }

  /** The packets of a file; the last one is short, and empty if the file fills its blocks. */
  function Packets(file: seq<Byte>): seq<Message> {
    seq(|file| / BLOCK_SIZE + 1, i requires 0 <= i < |file| / BLOCK_SIZE + 1 =>
      Message(Data, i % 256, Block(file, BLOCK_SIZE * i)))
  }

  lemma PacketIs(file: seq<Byte>, i: nat)
    requires i <= |file| / BLOCK_SIZE
    ensures BLOCK_SIZE * i <= |file| && i < |Packets(file)| == |file| / BLOCK_SIZE + 1
    ensures Packets(file)[..i] + [Message(Data, i % 256, Block(file, BLOCK_SIZE * i))] == Packets(file)[..i + 1]
    ensures i < |file| / BLOCK_SIZE ==> |Block(file, BLOCK_SIZE * i)| == BLOCK_SIZE
    ensures i == |file| / BLOCK_SIZE ==> |Block(file, BLOCK_SIZE * i)| < BLOCK_SIZE
  {
    assert Packets(file)[i] == Message(Data, i % 256, Block(file, BLOCK_SIZE * i));
  }

  /** What has been sent: the first packets, all accepted; the loop ends with the last one. */
  ghost predicate Sent(file: seq<Byte>, accepts: nat -> bool, sent: seq<Message>, pos: nat, eof: bool, code: nat) {
    && |sent| <= |Packets(file)| && sent == Packets(file)[..|sent|] && pos <= |file|
    && (forall n :: 0 <= n < |sent| ==> accepts(n))
    && (if eof then |sent| == |Packets(file)| else |sent| < |Packets(file)| && pos == BLOCK_SIZE * |sent|)
    && code == |sent| % 256
  }

  lemma SentNext(file: seq<Byte>, accepts: nat -> bool, sent: seq<Message>, pos: nat, code: nat)
    requires Sent(file, accepts, sent, pos, false, code) && accepts(|sent|)
    ensures var data := Block(file, pos);
            Sent(file, accepts, sent + [Message(Data, code, data)], pos + |data|, |data| < BLOCK_SIZE, (code + 1) % 256)
  {
    PacketIs(file, |sent|);
    NextCode(|sent|);
  }

  lemma NextCode(n: nat)
    ensures (n % 256 + 1) % 256 == (n + 1) % 256
  {
  }

  lemma NothingSent(file: seq<Byte>, accepts: nat -> bool)
    ensures Sent(file, accepts, [], 0, false, 0)
  {
  }

  /**
    * The loop that sends a file, as the server does for a download and the client for an upload.
    * accepts(n) says whether the n-th send succeeds.
    */
  method SendFile(file: seq<Byte>, accepts: nat -> bool) returns (sent: seq<Message>, ok: bool)
    ensures |sent| <= |Packets(file)| && sent == Packets(file)[..|sent|]
    ensures forall n :: 0 <= n < |sent| ==> accepts(n)
    ensures ok <==> |sent| == |Packets(file)|
    ensures !ok ==> !accepts(|sent|)
  {
    var pos: nat, eof, code: nat := 0, false, 0;
    sent := [];
    NothingSent(file, accepts);
    while !eof
      invariant Sent(file, accepts, sent, pos, eof, code)
      decreases !eof, |file| - pos
    {
      var data := Block(file, pos);
      if !accepts(|sent|) {
        return sent, false;
      }
      SentNext(file, accepts, sent, pos, code);
      pos := pos + |data|;
      eof := |data| < BLOCK_SIZE;
      sent := sent + [Message(Data, code, data)];
      code := (code + 1) % 256;
    }
    return sent, true;
  }

  // ----- Receiving -----

  datatype Outcome = Complete | Ended | Failed(code: nat) | Unexpected

  /** The file written, how many messages were taken, and how it ended. */
  datatype Transfer = Transfer(written: seq<Byte>, consumed: nat, outcome: Outcome)

  function Prepend(m: Message, t: Transfer): Transfer {
    Transfer(m.data + t.written, t.consumed + 1, t.outcome)
  }

  /** The client's loop over what arrives. */
  function Receive(msgs: seq<Message>): Transfer {
    if msgs == [] then Transfer([], 0, Ended)
    else
      var m := msgs[0];
      if m.data == [] then Transfer([], 1, Ended)
      else if m.kind == Error then Transfer([], 1, Failed(m.code))
      else if m.kind != Data then Transfer([], 1, Unexpected)
      else if |m.data| < BLOCK_SIZE then Transfer(m.data, 1, Complete)
      else Prepend(m, Receive(msgs[1..]))
  }

  lemma MorePrepended(written: seq<Byte>, m: Message, t: Transfer)
    ensures written + Prepend(m, t).written == written + m.data + t.written
  {
  }

  /** A download: nothing is written if the first message is an error or nothing arrives. */
  method Get(msgs: seq<Message>) returns (t: Transfer, created: bool)
    ensures created <==> msgs != [] && msgs[0].kind != Error
    ensures t == if created then Receive(msgs) else if msgs == [] then Transfer([], 0, Ended) else Transfer([], 1, Failed(msgs[0].code))
  {
    if msgs == [] {
      return Transfer([], 0, Ended), false;
    }
    if msgs[0].kind == Error {
      return Transfer([], 1, Failed(msgs[0].code)), false;
    }
    t := ReceiveAll(msgs);
    return t, true;
  }

  method ReceiveAll(msgs: seq<Message>) returns (t: Transfer)
    ensures t == Receive(msgs)
  {
    var written: seq<Byte>, n := [], 0;
    while n < |msgs| && msgs[n].data != []
      invariant 0 <= n <= |msgs|
      invariant Receive(msgs) == Transfer(written + Receive(msgs[n..]).written, n + Receive(msgs[n..]).consumed, Receive(msgs[n..]).outcome)
    {
      var m := msgs[n];
      if m.kind == Data {
        MorePrepended(written, m, Receive(msgs[n + 1..]));
        assert msgs[n..][1..] == msgs[n + 1..];
        if |m.data| < BLOCK_SIZE {
          return Transfer(written + m.data, n + 1, Complete);
        }
        written := written + m.data;
      } else if m.kind == Error {
        return Transfer(written, n + 1, Failed(m.code));
      } else {
        return Transfer(written, n + 1, Unexpected);
      }
      n := n + 1;
    }
    t := Transfer(written, if n < |msgs| then n + 1 else n, Ended);
  }

  /** The server's answers while it stores a file. */
  datatype Storing = Storing(written: seq<Byte>, consumed: nat, answer: seq<Message>)

  function WriteError(): Message {
    Message(Error, 4, [])
  }

  function BadRequest(): Message {
    Message(Error, 0, [])
  }

  /** The server's loop over what arrives: fwrite() of an empty block is taken for a failure. */
  function Store(msgs: seq<Message>): Storing {
    if msgs == [] then Storing([], 0, [])
    else
      var m := msgs[0];
      if m.kind != Data then Storing([], 1, [BadRequest()])
      else if m.data == [] then Storing([], 1, [WriteError()])
      else if |m.data| < BLOCK_SIZE then Storing(m.data, 1, [Message(Ack, m.code, [])])
      else
        var s := Store(msgs[1..]);
        Storing(m.data + s.written, s.consumed + 1, s.answer)
  }

  method StoreFile(msgs: seq<Message>) returns (s: Storing)
    ensures s == Store(msgs)
  {
    var written: seq<Byte>, n := [], 0;
    while n < |msgs|
      invariant 0 <= n <= |msgs|
      invariant Store(msgs) == Storing(written + Store(msgs[n..]).written, n + Store(msgs[n..]).consumed, Store(msgs[n..]).answer)
    {
      var m := msgs[n];
      if m.kind != Data {
        return Storing(written, n + 1, [BadRequest()]);
      }
      if m.data == [] {
        return Storing(written, n + 1, [WriteError()]);
      }
      if |m.data| < BLOCK_SIZE {
        return Storing(written + m.data, n + 1, [Message(Ack, m.code, [])]);
      }
      MorePrepended(written, m, Transfer(Store(msgs[n + 1..]).written, 0, Ended));
      assert msgs[n..][1..] == msgs[n + 1..];
      written := written + m.data;
      n := n + 1;
    }
    s := Storing(written, n, []);
  }

  // ----- Round trips -----

  lemma BlocksJoin(file: seq<Byte>, i: nat)
    requires i <= |file| / BLOCK_SIZE
    ensures BLOCK_SIZE * i <= |file| && Packets(file)[i].data == Block(file, BLOCK_SIZE * i)
    ensures i < |file| / BLOCK_SIZE ==> |Packets(file)[i].data| == BLOCK_SIZE
                                        && Packets(file)[i].data + file[BLOCK_SIZE * (i + 1)..] == file[BLOCK_SIZE * i..]
    ensures i == |file| / BLOCK_SIZE ==> |Packets(file)[i].data| == |file| % BLOCK_SIZE && Packets(file)[i].data == file[BLOCK_SIZE * i..]
  {
  }

  lemma {:induction false} ReceivesFrom(file: seq<Byte>, i: nat, rest: seq<Message>)
    requires i <= |file| / BLOCK_SIZE
    ensures Receive(Packets(file)[i..] + rest)
            == Transfer(file[BLOCK_SIZE * i..], |Packets(file)| - i, if |file| % BLOCK_SIZE == 0 then Ended else Complete)
    decreases |file| / BLOCK_SIZE - i
  {
    var msgs := Packets(file)[i..] + rest;
    BlocksJoin(file, i);
    assert msgs[0] == Packets(file)[i];
    if i < |file| / BLOCK_SIZE {
      ReceivesFrom(file, i + 1, rest);
      assert msgs[1..] == Packets(file)[i + 1..] + rest;
    }
  }

  /**
    * A download writes the file that was sent, takes every packet and no more, whatever follows on
    * the channel; the client says it is complete exactly if the file does not fill its blocks.
    */
  lemma DownloadRoundTrip(file: seq<Byte>, rest: seq<Message>)
    ensures var t := Receive(Packets(file) + rest);
            && t.written == file && t.consumed == |Packets(file)|
            && (t.outcome == Complete <==> |file| % BLOCK_SIZE != 0)
  {
    ReceivesFrom(file, 0, rest);
    assert Packets(file)[0..] == Packets(file) && file[0..] == file;
  }

  /** After a send failed, the client has a part of the file, from its start. */
  lemma {:induction false} ReceivesPart(file: seq<Byte>, i: nat, k: nat)
    requires i <= k <= |file| / BLOCK_SIZE
    ensures Receive(Packets(file)[i..k]) == Transfer(file[BLOCK_SIZE * i..BLOCK_SIZE * k], k - i, Ended)
    decreases k - i
  {
    if i < k {
      var msgs := Packets(file)[i..k];
      BlocksJoin(file, i);
      BlocksJoin(file, k);
      ReceivesPart(file, i + 1, k);
      assert msgs[1..] == Packets(file)[i + 1..k];
      assert file[BLOCK_SIZE * i..BLOCK_SIZE * k] == Block(file, BLOCK_SIZE * i) + file[BLOCK_SIZE * (i + 1)..BLOCK_SIZE * k];
    } else {
      assert Packets(file)[i..k] == [];
    }
  }

  /** The download that an interrupted run of the server's loop leads to. */
  lemma {:induction false} InterruptedDownload(file: seq<Byte>, sent: seq<Message>)
    requires |sent| < |Packets(file)| && sent == Packets(file)[..|sent|]
    ensures BLOCK_SIZE * |sent| <= |file| && Receive(sent) == Transfer(file[..BLOCK_SIZE * |sent|], |sent|, Ended)
    ensures Receive(sent).written == file <==> |file| == BLOCK_SIZE * |sent|
  {
    ReceivesPart(file, 0, |sent|);
    assert Packets(file)[0..|sent|] == sent;
    BlocksJoin(file, |sent|);
  }

  lemma FrontBlock(file: seq<Byte>, i: nat, k: nat)
    requires i < k <= |file| / BLOCK_SIZE
    ensures Packets(file)[i].kind == Data && |Packets(file)[i].data| == BLOCK_SIZE && BLOCK_SIZE * k <= |file|
    ensures Packets(file)[i].data + file[BLOCK_SIZE * (i + 1)..BLOCK_SIZE * k] == file[BLOCK_SIZE * i..BLOCK_SIZE * k]
  {
    BlocksJoin(file, i);
    BlocksJoin(file, k);
  }

  lemma ReceivesBlock(m: Message, rest: seq<Message>)
    requires m.kind == Data && |m.data| == BLOCK_SIZE
    ensures Receive([m] + rest) == Prepend(m, Receive(rest))
  {
    assert ([m] + rest)[0] == m && ([m] + rest)[1..] == rest;
  }

  lemma StoresBlock(m: Message, rest: seq<Message>)
    requires m.kind == Data && |m.data| == BLOCK_SIZE
    ensures var s := Store(rest); Store([m] + rest) == Storing(m.data + s.written, s.consumed + 1, s.answer)
  {
    assert ([m] + rest)[0] == m && ([m] + rest)[1..] == rest;
  }

  /** What follows the first blocks of a file decides how a download ends; the blocks are kept. */
  lemma {:induction false} ReceivesAfter(file: seq<Byte>, i: nat, k: nat, next: seq<Message>)
    requires i <= k <= |file| / BLOCK_SIZE
    ensures var t := Receive(next);
            Receive(Packets(file)[i..k] + next)
            == Transfer(file[BLOCK_SIZE * i..BLOCK_SIZE * k] + t.written, k - i + t.consumed, t.outcome)
    decreases k - i
  {
    if i < k {
      var m, rest := Packets(file)[i], Packets(file)[i + 1..k] + next;
      FrontBlock(file, i, k);
      ReceivesAfter(file, i + 1, k, next);
      assert Packets(file)[i..k] + next == [m] + rest;
      ReceivesBlock(m, rest);
      Rejoin(m.data, file[BLOCK_SIZE * (i + 1)..BLOCK_SIZE * k], Receive(next).written);
    } else {
      assert Packets(file)[i..k] + next == next;
    }
  }

  lemma Rejoin(a: seq<Byte>, b: seq<Byte>, c: seq<Byte>)
    ensures (a + b) + c == a + (b + c)
  {
  }

  /** An error packet after k blocks ends the download with its code, and any other that is not data with
      a complaint; the file has the blocks before it. */
  lemma OtherPacketStops(file: seq<Byte>, k: nat, m: Message, rest: seq<Message>)
    requires k <= |file| / BLOCK_SIZE && m.kind != Data && m.data != []
    ensures Receive(Packets(file)[..k] + ([m] + rest))
            == Transfer(file[..BLOCK_SIZE * k], k + 1, if m.kind == Error then Failed(m.code) else Unexpected)
  {
    ReceivesAfter(file, 0, k, [m] + rest);
    assert ([m] + rest)[0] == m;
    assert Packets(file)[0..k] == Packets(file)[..k] && file[0..BLOCK_SIZE * k] + [] == file[..BLOCK_SIZE * k];
  }

  lemma {:induction false} StoresAfter(file: seq<Byte>, i: nat, k: nat, next: seq<Message>)
    requires i <= k <= |file| / BLOCK_SIZE
    ensures var s := Store(next);
            Store(Packets(file)[i..k] + next)
            == Storing(file[BLOCK_SIZE * i..BLOCK_SIZE * k] + s.written, k - i + s.consumed, s.answer)
    decreases k - i
  {
    if i < k {
      var m, rest := Packets(file)[i], Packets(file)[i + 1..k] + next;
      FrontBlock(file, i, k);
      StoresAfter(file, i + 1, k, next);
      assert Packets(file)[i..k] + next == [m] + rest;
      StoresBlock(m, rest);
      Rejoin(m.data, file[BLOCK_SIZE * (i + 1)..BLOCK_SIZE * k], Store(next).written);
    } else {
      assert Packets(file)[i..k] + next == next;
    }
  }

  /** A packet that is not data ends an upload with an error of code 0; the blocks before it are kept. */
  lemma OtherPacketRefused(file: seq<Byte>, k: nat, m: Message, rest: seq<Message>)
    requires k <= |file| / BLOCK_SIZE && m.kind != Data
    ensures Store(Packets(file)[..k] + ([m] + rest)) == Storing(file[..BLOCK_SIZE * k], k + 1, [Message(Error, 0, [])])
  {
    StoresAfter(file, 0, k, [m] + rest);
    assert ([m] + rest)[0] == m;
    assert Packets(file)[0..k] == Packets(file)[..k] && file[0..BLOCK_SIZE * k] + [] == file[..BLOCK_SIZE * k];
  }

  lemma {:induction false} StoresFrom(file: seq<Byte>, i: nat, rest: seq<Message>)
    requires i <= |file| / BLOCK_SIZE
    ensures Store(Packets(file)[i..] + rest)
            == Storing(file[BLOCK_SIZE * i..], |Packets(file)| - i,
                       [if |file| % BLOCK_SIZE == 0 then WriteError() else Message(Ack, |file| / BLOCK_SIZE % 256, [])])
    decreases |file| / BLOCK_SIZE - i
  {
    var msgs := Packets(file)[i..] + rest;
    BlocksJoin(file, i);
    assert msgs[0] == Packets(file)[i];
    if i < |file| / BLOCK_SIZE {
      StoresFrom(file, i + 1, rest);
      assert msgs[1..] == Packets(file)[i + 1..] + rest;
    }
  }

  /**
    * An upload stores the file that was sent, but it is acknowledged only if the file does not fill
    * its blocks; otherwise the empty last packet is answered with a write error.
    */
  lemma UploadRoundTrip(file: seq<Byte>, rest: seq<Message>)
    ensures var s := Store(Packets(file) + rest);
            && s.written == file && s.consumed == |Packets(file)| && |s.answer| == 1
            && (s.answer[0].kind == Ack <==> |file| % BLOCK_SIZE != 0)
            && (s.answer[0].kind == Ack ==> s.answer[0].code == (|Packets(file)| - 1) % 256)
            && (s.answer[0].kind != Ack ==> s.answer[0] == WriteError())
  {
    StoresFrom(file, 0, rest);
    assert Packets(file)[0..] == Packets(file) && file[0..] == file;
  }
}
