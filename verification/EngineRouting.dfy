/** Where a notification goes, and what the end of an association leaves behind, field by field. */
module EngineRouting {
  import opened Basics
  import opened Notifications
  import opened EngineState
  import opened EngineCalls
  import Delivery

  /** From `s` to `t`, everything but one association and its socket is the same. */
  ghost predicate OnlyTouches(s: State, t: State, a: AssocId, i: Instance) {
    && t == s.(assocs := t.assocs, sockets := t.sockets)
    && a in s.assocs && i in s.sockets && t.assocs.Keys == s.assocs.Keys && t.sockets.Keys == s.sockets.Keys
    && (forall b <- s.assocs :: b != a ==> t.assocs[b] == s.assocs[b])
    && (forall j <- s.sockets :: j != i ==> t.sockets[j] == s.sockets[j])
  }

  /**
    * A record is kept exactly if it is data or an event that its association has subscribed to.  It
    * goes to the association's own queue if the association has been peeled off or its socket has no
    * global queue, and to the socket's global queue otherwise, at the end of either; one more use of
    * the association is counted.
    */
  ghost predicate Routed(s: State, t: State, n: Notification) {
    var a := n.assoc;
    a in s.assocs && s.assocs[a].socket in s.sockets &&
    var i := s.assocs[a].socket;
    OnlyTouches(s, t, a, i) &&
    var x, y, k, l := s.assocs[a], t.assocs[a], s.sockets[i], t.sockets[i];
    if n.kind != DataArrive && n.kind !in x.subscribed then y == x && l == k
    else if x.peeledOff || !k.globalQueue then
      && l == k && y.inQueue == x.inQueue + [n] && y.useCount == x.useCount + 1 && y.readReady
      && y == x.(inQueue := y.inQueue, useCount := y.useCount, readReady := y.readReady)
    else
      && l.queue == k.queue + [n] && y.useCount == x.useCount + 1
      && y == x.(useCount := y.useCount) && l == k.(queue := l.queue, readReady := l.readReady)
      && (n.kind == DataArrive || n.kind in k.subscribed ==> l.readReady)
  }

  lemma DeliverRoutes(s: State, n: Notification)
    requires n.assoc in s.assocs && s.assocs[n.assoc].socket in s.sockets
    ensures Routed(s, Deliver(s, n), n)
  {
    var i := s.assocs[n.assoc].socket;
    var x, k := s.assocs[n.assoc], s.sockets[i];
    var y, l := Noted(x, k, n), Queued(x, k, n);
    NotedRight(x, k, n);
    QueuedRight(x, k, n);
    assert Deliver(s, n) == s.(assocs := s.assocs[n.assoc := y], sockets := s.sockets[i := l]);
    RoutedBoth(s, s.(assocs := s.assocs[n.assoc := y], sockets := s.sockets[i := l]), n, y, l);
  }

  lemma RoutedBoth(s: State, t: State, n: Notification, y: Association, l: Socket)
    requires n.assoc in s.assocs && s.assocs[n.assoc].socket in s.sockets
    requires t == s.(assocs := s.assocs[n.assoc := y], sockets := s.sockets[s.assocs[n.assoc].socket := l])
    requires NotedAs(s.assocs[n.assoc], s.sockets[s.assocs[n.assoc].socket], n, y)
    requires QueuedAs(s.assocs[n.assoc], s.sockets[s.assocs[n.assoc].socket], n, l)
    ensures Routed(s, t, n)
  {
  }

  ghost predicate NotedAs(x: Association, k: Socket, n: Notification, y: Association) {
    if n.kind != DataArrive && n.kind !in x.subscribed then y == x
    else if x.peeledOff || !k.globalQueue then
      y == x.(inQueue := x.inQueue + [n], useCount := x.useCount + 1, readReady := true)
    else y == x.(useCount := x.useCount + 1)
  }

  ghost predicate QueuedAs(x: Association, k: Socket, n: Notification, l: Socket) {
    if (n.kind != DataArrive && n.kind !in x.subscribed) || x.peeledOff || !k.globalQueue then l == k
    else
      && l == k.(queue := k.queue + [n], readReady := l.readReady)
      && (n.kind == DataArrive || n.kind in k.subscribed ==> l.readReady)
  }

  lemma NotedRight(x: Association, k: Socket, n: Notification)
    ensures NotedAs(x, k, n, Noted(x, k, n))
  {
    assert (x.inQueue + [n])[|x.inQueue|] == n;
  }

  lemma QueuedRight(x: Association, k: Socket, n: Notification)
    ensures QueuedAs(x, k, n, Queued(x, k, n))
  {
    assert (k.queue + [n])[|k.queue|] == n;
  }

  // ---------------------------------------------------------------- events

  function ReadU16(b: seq<Byte>, i: nat): int
    requires i + 1 < |b|
  {
    b[i] as int + 256 * b[i + 1] as int
  }

  function ReadU32(b: seq<Byte>, i: nat): int
    requires i + 3 < |b|
  {
    ReadU16(b, i) + 65536 * ReadU16(b, i + 2)
  }

  /** The record is an unread sctp_assoc_change whose fields say this. */
  ghost predicate Announces(n: Notification, a: AssocId, state: int, outStreams: nat, inStreams: nat) {
    && n.kind == AssocChange && n.assoc == a && n.read == [] && |n.unread| == 20
    && ReadU16(n.unread, 0) == SCTP_ASSOC_CHANGE && ReadU16(n.unread, 2) == 0 && ReadU32(n.unread, 4) == 20
    && ReadU16(n.unread, 8) == state && ReadU16(n.unread, 10) == 0
    && ReadU16(n.unread, 12) == outStreams && ReadU16(n.unread, 14) == inStreams
    && ReadU32(n.unread, 16) == a
  }

  lemma U16Reads(n: nat, b: seq<Byte>, i: nat)
    requires n < 65536 && i + 2 <= |b| && b[i..i + 2] == U16(n)
    ensures ReadU16(b, i) == n
  {
    assert b[i] == U16(n)[0] && b[i + 1] == U16(n)[1];
  }

  lemma U32Reads(n: nat, b: seq<Byte>, i: nat)
    requires n < 0x1_0000_0000 && i + 4 <= |b| && b[i..i + 4] == U32(n)
    ensures ReadU32(b, i) == n
  {
    assert U32(n)[..2] == U16(n % 65536) && U32(n)[2..] == U16(n / 65536);
    assert b[i..i + 2] == b[i..i + 4][..2] && b[i + 2..i + 4] == b[i..i + 4][2..];
    U16Reads(n % 65536, b, i);
    U16Reads(n / 65536, b, i + 2);
  }

  /** What the callbacks encode reads back, as every field fits its width. */
  lemma EventReads(a: AssocId, state: nat, outStreams: nat, inStreams: nat)
    requires a < 0x1_0000_0000 && state < 65536 && outStreams < 65536 && inStreams < 65536
    ensures Announces(AssocChangeEvent(a, state, outStreams, inStreams), a, state, outStreams, inStreams)
  {
    var b := AssocChangeEvent(a, state, outStreams, inStreams).unread;
    EventLayout(a, state, outStreams, inStreams, b);
    U16Reads(SCTP_ASSOC_CHANGE, b, 0);
    U16Reads(0, b, 2);
    U32Reads(20, b, 4);
    U16Reads(state, b, 8);
    U16Reads(0, b, 10);
    U16Reads(outStreams, b, 12);
    U16Reads(inStreams, b, 14);
    U32Reads(a, b, 16);
  }

  lemma EventLayout(a: AssocId, state: nat, outStreams: nat, inStreams: nat, b: seq<Byte>)
    requires b == AssocChangeEvent(a, state, outStreams, inStreams).unread
    ensures |b| == 20 && b[0..2] == U16(SCTP_ASSOC_CHANGE) && b[2..4] == U16(0) && b[4..8] == U32(20) && b[8..10] == U16(state)
    ensures b[10..12] == U16(0) && b[12..14] == U16(outStreams) && b[14..16] == U16(inStreams) && b[16..20] == U32(a)
  {
    FieldsOf(U16(SCTP_ASSOC_CHANGE), U16(0), U32(20), U16(state), U16(0), U16(outStreams), U16(inStreams), U32(a), b);
  }

  lemma FieldsOf(kind: seq<Byte>, flags: seq<Byte>, length: seq<Byte>, state: seq<Byte>, error: seq<Byte>,
                 outStreams: seq<Byte>, inStreams: seq<Byte>, assoc: seq<Byte>, b: seq<Byte>)
    requires |kind| == |flags| == |state| == |error| == |outStreams| == |inStreams| == 2
    requires |length| == |assoc| == 4
    requires b == kind + flags + length + state + error + outStreams + inStreams + assoc
    ensures |b| == 20 && b[0..2] == kind && b[2..4] == flags && b[4..8] == length && b[8..10] == state
    ensures b[10..12] == error && b[12..14] == outStreams && b[14..16] == inStreams && b[16..20] == assoc
  {
  }

  /** One announcement has been routed, and nothing else has changed. */
  ghost predicate Announced(s: State, t: State, a: AssocId, state: int, outStreams: nat, inStreams: nat) {
    exists n :: Announces(n, a, state, outStreams, inStreams) && Routed(s, t, n)
  }

  lemma AnnouncedBy(s: State, a: AssocId, state: nat, outStreams: nat, inStreams: nat)
    requires a in s.assocs && s.assocs[a].socket in s.sockets
    requires a < 0x1_0000_0000 && state < 65536 && outStreams < 65536 && inStreams < 65536
    ensures Announced(s, Deliver(s, AssocChangeEvent(a, state, outStreams, inStreams)), a, state, outStreams, inStreams)
  {
    EventReads(a, state, outStreams, inStreams);
    DeliverRoutes(s, AssocChangeEvent(a, state, outStreams, inStreams));
  }

  // ---------------------------------------------------------------- what is announced, and what is set

  /** A reported end sets the end flags, the lost one only for a loss, and announces which end it was. */
  lemma EndIsAnnounced(s: State, a: AssocId, lost: bool)
    requires a in s.assocs && s.assocs[a].socket in s.sockets && a < 0x1_0000_0000
    ensures var x := s.assocs[a];
            var y := x.(lost := lost || x.lost, complete := true, readReady := true);
            var m := s.(assocs := s.assocs[a := y], lib := s.lib.(ended := s.lib.ended + {a}));
            Announced(m, MarkEnd(s, a, lost), a, if lost then 12 else 14, 0, 0)
  {
    AnnouncedBy(Finish(s, a, lost), a, if lost then SCTP_COMM_LOST else SCTP_SHUTDOWN_COMP, 0, 0);
  }

  /** An association of ours that comes up is marked as up and announced with its streams. */
  lemma UpIsAnnounced(s: State, a: AssocId, outStreams: nat, inStreams: nat)
    requires a in s.assocs && s.assocs[a].socket in s.sockets
    requires a < 0x1_0000_0000 && outStreams < 65536 && inStreams < 65536
    ensures Announced(s.(assocs := s.assocs[a := s.assocs[a].(up := true)]), Established(s, a, outStreams, inStreams),
                      a, 11, outStreams, inStreams)
  {
    AnnouncedBy(SetAssoc(s, a, s.assocs[a].(up := true)), a, SCTP_COMM_UP, outStreams, inStreams);
  }

  /** A peer's association is new, up, unused and used last just now; it waits behind the older requests
      of a socket that is then ready, and is announced. */
  lemma RequestIsAnnounced(s: State, i: Instance, a: AssocId, outStreams: nat, inStreams: nat)
    requires i in s.sockets && a < 0x1_0000_0000 && outStreams < 65536 && inStreams < 65536
    ensures exists m: State ::
              && a in m.assocs && m.assocs == s.assocs[a := m.assocs[a]]
              && m.assocs[a].socket == i && m.assocs[a].up && !m.assocs[a].lost && !m.assocs[a].complete
              && !m.assocs[a].shuttingDown && !m.assocs[a].peeledOff && m.assocs[a].useCount == 0
              && m.assocs[a].lastUsage == s.clock && m.assocs[a].inQueue == [] && !m.assocs[a].readReady
              && m.assocs[a].subscribed == s.sockets[i].subscribed
              && m.sockets == s.sockets[i := s.sockets[i].(requests := s.sockets[i].requests + [a], readReady := true)]
              && m.lib == s.lib.(assocs := s.lib.assocs[a := i], used := s.lib.used + {a})
              && Announced(m, Incoming(s, i, a, outStreams, inStreams), a, 11, outStreams, inStreams)
  {
    AnnouncedBy(Request(Create(s, i, a, true), i, a), a, SCTP_COMM_UP, outStreams, inStreams);
  }
}
