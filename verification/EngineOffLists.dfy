/** The associations on none of their socket's lists: accepted, peeled off or just connected.  A file
    descriptor may stand for such a one, so nothing but the calls that close it may take it away. */
module EngineOffLists {
  import opened Basics
  import opened Notifications
  import opened EngineState
  import opened EngineEvolution
  import opened EngineCalls
  import Delivery

  function OffLists(s: State): set<AssocId> {
    set a | a in s.assocs && s.assocs[a].socket in s.sockets && Unlisted(s, a)
  }

  /** No association is gone or lists anew. */
  ghost predicate StaysOff(s: State, t: State) {
    && (forall a <- s.assocs :: a in t.assocs && t.assocs[a].socket == s.assocs[a].socket)
    && (forall i <- s.sockets :: i in t.sockets && NoNewListing(s.sockets[i], t.sockets[i]))
  }

  ghost predicate NoNewListing(k: Socket, l: Socket) {
    l.connectionless <= k.connectionless && forall a :: a in l.requests ==> a in k.requests
  }

  lemma StayOff(s: State, t: State)
    requires StaysOff(s, t)
    ensures OffLists(s) <= OffLists(t)
  {
    forall a <- OffLists(s) ensures a in OffLists(t) {
      var i := s.assocs[a].socket;
      assert NoNewListing(s.sockets[i], t.sockets[i]);
    }
  }

  lemma AssocStaysOff(s: State, a: AssocId, x: Association)
    requires a in s.assocs && x.socket == s.assocs[a].socket
    ensures OffLists(s) <= OffLists(SetAssoc(s, a, x))
  {
    StayOff(s, SetAssoc(s, a, x));
  }

  lemma SocketStaysOff(s: State, i: Instance, k: Socket)
    requires i in s.sockets && NoNewListing(s.sockets[i], k)
    ensures OffLists(s) <= OffLists(SetSocket(s, i, k))
  {
    StayOff(s, SetSocket(s, i, k));
  }

  /** What the end of a send takes away: with MSG_EOF or MSG_ABORT on an auto-connect socket, its own
      association. */
  function Removed(s: State, a: AssocId, closes: bool): set<AssocId> {
    if closes && a in s.assocs && s.assocs[a].socket in s.sockets && s.sockets[s.assocs[a].socket].autoConnect then {a} else {}
  }

  // ---------------------------------------------------------------- what sctplib brings about

  lemma DeliverStaysOff(s: State, n: Notification)
    requires n.assoc in s.assocs && s.assocs[n.assoc].socket in s.sockets
    ensures OffLists(s) <= OffLists(Deliver(s, n))
  {
    var x := s.assocs[n.assoc];
    NotedFrame(x, s.sockets[x.socket], n);
    QueuedFrame(x, s.sockets[x.socket], n);
    StayOff(s, Deliver(s, n));
  }

  lemma MarkEndStaysOff(s: State, a: AssocId, lost: bool)
    requires a in s.assocs && s.assocs[a].socket in s.sockets
    ensures OffLists(s) <= OffLists(MarkEnd(s, a, lost))
  {
    StayOff(s, Finish(s, a, lost));
    DeliverStaysOff(Finish(s, a, lost), EndEvent(a, lost));
  }

  /** Auto-close takes none of them away. */
  lemma EvolvesStaysOff(s: State, t: State)
    requires Evolves(s, t)
    ensures OffLists(s) <= OffLists(t)
  {
    forall a <- OffLists(s) ensures a in OffLists(t) {
      assert EvolvedAssoc(s, t, a) && EvolvedSocket(s, t, s.assocs[a].socket);
    }
  }

  lemma EndStaysOff(s: State, t: State, a: AssocId, lost: bool)
    requires EndHandled(s, t, a, lost)
    ensures OffLists(s) <= OffLists(t)
  {
    if a in s.closingAssocs {
      StayOff(s, Collect(s, a));
      EvolvesStaysOff(Collect(s, a), t);
    } else {
      MarkEndStaysOff(s, a, lost);
      EvolvesStaysOff(MarkEnd(s, a, lost), t);
    }
  }

  lemma UpStaysOff(s: State, t: State, a: AssocId, i: Instance, outStreams: nat, inStreams: nat)
    requires Inv(s) && AssocOk(s, a)
    requires if a in s.assocs then t == Established(s, a, outStreams, inStreams)
             else if i in s.sockets && s.sockets[i].listening then t == Incoming(s, i, a, outStreams, inStreams)
             else Evolves(Rejected(s, a), t)
    ensures OffLists(s) <= OffLists(t)
  {
    if a in s.assocs {
      var x := s.assocs[a].(up := true);
      assert AssocOk(s, a);
      AssocStaysOff(s, a, x);
      DeliverStaysOff(SetAssoc(s, a, x), AssocChangeEvent(a, SCTP_COMM_UP, outStreams, inStreams));
    } else if i in s.sockets && s.sockets[i].listening {
      IncomingStaysOff(s, i, a, outStreams, inStreams);
    } else {
      StayOff(s, Rejected(s, a));
      EvolvesStaysOff(Rejected(s, a), t);
    }
  }

  lemma IncomingStaysOff(s: State, i: Instance, a: AssocId, outStreams: nat, inStreams: nat)
    requires i in s.sockets && a !in s.assocs
    ensures OffLists(s) <= OffLists(Incoming(s, i, a, outStreams, inStreams))
  {
    var t := Request(Create(s, i, a, true), i, a);
    assert OffLists(s) <= OffLists(t);
    DeliverStaysOff(t, AssocChangeEvent(a, SCTP_COMM_UP, outStreams, inStreams));
  }

  // ---------------------------------------------------------------- what calls bring about

  lemma CreateStaysOff(s: State, i: Instance, a: AssocId, up: bool)
    requires i in s.sockets && a !in s.assocs
    ensures OffLists(s) <= OffLists(Hold(Create(s, i, a, up), a))
  {
    StayOff(s, Create(s, i, a, up));
    StayOff(Create(s, i, a, up), Hold(Create(s, i, a, up), a));
  }

  lemma LetGoStaysOff(s: State, a: AssocId, lastUsage: nat)
    requires a in s.assocs && s.assocs[a].useCount > 0
    ensures OffLists(s) <= OffLists(LetGo(s, a, lastUsage))
  {
    StayOff(s, LetGo(s, a, lastUsage));
  }

  /** The oldest request leaves the list, and none of the others is on it. */
  lemma AcceptStaysOff(s: State, i: Instance)
    requires Inv(s) && i in s.sockets && s.sockets[i].requests != []
    ensures OffLists(s) <= OffLists(Accepted(s, i)) && s.sockets[i].requests[0] in OffLists(Accepted(s, i))
  {
    StayOff(s, Accepted(s, i));
    AcceptedKeeps(s, i);
  }

  lemma PeelOffStaysOff(s: State, i: Instance, a: AssocId)
    requires i in s.sockets && a in s.assocs
    ensures OffLists(s) <= OffLists(PeelOff(s, i, a))
  {
    StayOff(s, PeelOff(s, i, a));
  }

  lemma ReceiveStaysOff(s: State, i: Instance, r: Delivery.Reception)
    requires i in s.sockets && s.sockets[i].queue != []
    ensures OffLists(s) <= OffLists(ReceivedGlobal(s, i, r))
  {
    if r.head.Some? {
      SocketStaysOff(s, i, s.sockets[i].(queue := s.sockets[i].queue[0 := r.head.value]));
    } else {
      DropStaysOff(s, DropGlobal(s, i), i, s.sockets[i].queue[0].assoc);
    }
  }

  lemma DropStaysOff(s: State, t: State, i: Instance, a: AssocId)
    requires i in s.sockets && i in t.sockets && t.sockets == s.sockets[i := t.sockets[i]]
    requires NoNewListing(s.sockets[i], t.sockets[i])
    requires t.assocs == s.assocs || (a in s.assocs && t.assocs == s.assocs[a := Charged(s.assocs[a], s.clock)])
    ensures OffLists(s) <= OffLists(t)
  {
    StayOff(s, t);
  }

  lemma ReceiveOwnStaysOff(s: State, a: AssocId, r: Delivery.Reception)
    requires a in s.assocs && s.assocs[a].inQueue != []
    ensures OffLists(s) <= OffLists(ReceivedOwn(s, a, r))
  {
    var t := ReceivedOwn(s, a, r);
    AssocStaysOff(s, a, t.assocs[a]);
  }

  lemma DeleteStaysOff(s: State, u: State, t: State, a: AssocId)
    requires a in s.assocs
    requires s.assocs[a].complete ==> t == Destroy(s, a)
    requires !s.assocs[a].complete ==>
               t == EndDying(u, a) && (Evolves(Doomed(s, a), u) || Evolves(Collect(Doomed(s, a), a), u))
    ensures OffLists(s) - {a} <= OffLists(t)
  {
    if !s.assocs[a].complete {
      var d := if Evolves(Doomed(s, a), u) then Doomed(s, a) else Collect(Doomed(s, a), a);
      StayOff(s, d);
      EvolvesStaysOff(d, u);
      assert OffLists(u) - {a} <= OffLists(t);
    }
  }

  /** Closing an association that the caller holds, or that is on no list, takes none of them away. */
  lemma CloseStaysOff(s: State, t: State, a: AssocId, abort: bool)
    requires a in s.assocs && s.assocs[a].socket in s.sockets
    requires t == s || t == StartEnd(s, a, abort)
             || EndHandled(StartEnd(s, a, abort), t, a, true) || EndHandled(StartEnd(s, a, abort), t, a, false)
    ensures OffLists(s) <= OffLists(t)
  {
    var s1 := StartEnd(s, a, abort);
    StayOff(s, s1);
    if t != s && t != s1 {
      EndStaysOff(s1, t, a, EndHandled(s1, t, a, true));
    }
  }

  lemma {:induction false} ElementsIn(q: seq<AssocId>)
    ensures forall a :: a in Elements(q) ==> a in q
  {
    if q != [] {
      ElementsIn(q[1..]);
    }
  }

  /** checkAutoConnect lists only what waits to be accepted. */
  lemma ListingStaysOff(s: State, t: State, i: Instance)
    requires i in s.sockets && i in t.sockets && t.assocs == s.assocs && t.sockets == s.sockets[i := t.sockets[i]]
    requires t.sockets[i].requests == []
    requires t.sockets[i].connectionless == s.sockets[i].connectionless + Elements(s.sockets[i].requests)
    ensures OffLists(s) <= OffLists(t)
  {
    ElementsIn(s.sockets[i].requests);
  }

  lemma RemovedSocketStaysOff(s: State, i: Instance)
    requires forall a <- s.assocs :: s.assocs[a].socket != i
    ensures OffLists(s) <= OffLists(RemoveSocket(s, i))
  {
  }
}
