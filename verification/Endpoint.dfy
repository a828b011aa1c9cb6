/**
  * The descriptor table over the engine.  A slot points to its association object, which the engine
  * may delete: what keeps every such pointer alive, and the one call that does not.
  */
module Endpoint {
  import opened Basics
  import opened Notifications
  import opened EngineState
  import opened EngineOffLists
  import opened Descriptors
  import Engine
  import Delivery

  /** What happens to an endpoint: sctplib's callbacks, calls on sockets and associations, and calls on
      descriptors.  A socket's number in the table is its instance. */
  datatype Happening =
    | Below(step: Engine.Step)
    | Open(i: Instance, stream: bool)
    | AcceptOn(fd: int)
    | PeelOffFrom(fd: int, a: AssocId)
    | Connected(fd: int, a: AssocId, blocking: bool)
    | CloseFd(fd: int, lingers: bool, waits: bool)

  /** The end of a send that closes an association which a slot holds, on an auto-connect socket. */
  predicate CutsOff(s: State, held: set<AssocId>, h: Happening) {
    h.Below? && h.step.Application? && CallCutsOff(s, held, h.step.c)
  }

  predicate CallCutsOff(s: State, held: set<AssocId>, c: Engine.AppCall) {
    && c.OnAssociation? && c.use.Sent? && c.a in held && c.a in s.inflight
    && Removed(s, c.a, c.use.eof || c.use.abort) != {}
  }

  /** The end of a send with MSG_EOF or MSG_ABORT. */
  predicate EndsClosing(h: Happening) {
    && h.Below? && h.step.Application? && h.step.c.OnAssociation? && h.step.c.use.Sent?
    && (h.step.c.use.eof || h.step.c.use.abort)
  }

  lemma ConnectedKeys(owner: map<AssocId, SocketId>, a: AssocId, s: SocketId)
    ensures Descriptors.Connected(owner, a, s).Keys == owner.Keys + if a != 0 then {a} else {}
  {
  }

  class Endpoint {
    const master: Engine.SocketMaster
    const table: DescriptorTable

    ghost predicate Valid()
      reads this, master, table, table.sockets
    {
      Inv(master.View()) && master.dying == {} && table.Valid() && 0 !in table.owner
    }

    /** Every association that a slot holds is alive, and on no list that auto-close looks at. */
    ghost predicate Backed()
      reads this, master, table
    {
      table.owner.Keys <= OffLists(master.View())
    }

    constructor ()
      ensures Valid() && Backed() && fresh(master) && fresh(table) && fresh(table.sockets)
      ensures master.lib.used == {} && master.lib.usedInstances == {} && table.live == {} && table.owner == map[]
      ensures forall i :: 2 < i < FD_SETSIZE ==> table.sockets[i] == Invalid
    {
      master := new Engine.SocketMaster();
      table := new DescriptorTable();
    }

    /** sctplib's callbacks, the collector and the clock take nothing away from a slot. */
    method Callback(e: Engine.Event)
      requires Valid() && Backed()
      modifies master
      ensures Valid() && Backed()
    {
      master.Callback(e);
    }

    /** Nor does any call, but for the end of a send.  The calls that make or close an association are
        not made on one that a slot holds. */
    method Call(c: Engine.AppCall) returns (alive: bool)
      requires Valid() && Backed()
      requires c.OnAssociation? && c.a in table.owner ==> c.use.Sending?
      modifies master
      ensures Valid() && Backed()
    {
      alive := master.Call(c);
    }

    /** The end of a send takes the association from under its slot exactly if it closes it on an
        auto-connect socket. */
    method EndSend(a: AssocId, eof: bool, abort: bool)
      requires Valid() && Backed() && a in table.owner && a in master.inflight
      modifies master
      ensures Valid() && (Backed() <==> Removed(old(master.View()), a, eof || abort) == {})
    {
      assert AssocOk(master.View(), a);
      master.SendEnd(a, eof, abort);
    }

    /** accept() on a descriptor, without waiting.  The association waited to be accepted, so no slot held
        it.  A full table stops the program. */
    method Accept(fd: nat, tableSize: nat) returns (newFd: int, alive: bool)
      requires Valid() && Backed() && fd < FD_SETSIZE && table.sockets[fd].Sctp?
      requires table.sockets[fd].socket in master.sockets
      modifies master, table, table.sockets
      ensures Valid() && Backed()
      ensures var k := old(master.sockets)[old(table.sockets[fd]).socket];
              if !k.listening || k.requests == [] then alive && newFd == -Delivery.EAGAIN && table.owner == old(table.owner)
              else table.owner.Keys == old(table.owner).Keys + if alive then {k.requests[0]} else {}
    {
      ghost var s := master.View();
      var i := table.sockets[fd].socket;
      var a := master.Accept(i);
      if a == 0 {
        return -Delivery.EAGAIN, true;
      }
      AcceptStaysOff(s, i);
      assert a !in table.owner by { assert ListOk(s, i, a); }
      newFd, alive := table.Accept(fd, a, tableSize);
    }

    /** sctp_peeloff() on a descriptor.  The association was on its socket's list, so no slot held it; it
        is deleted again if there is no slot for it. */
    method PeelOff(fd: nat, a: AssocId, tableSize: nat) returns (newFd: int)
      requires Valid() && Backed() && fd < FD_SETSIZE && table.sockets[fd].Sctp? && !table.sockets[fd].stream
      requires table.sockets[fd].socket in master.sockets
      modifies master, table, table.sockets
      ensures Valid() && Backed()
      ensures table.owner.Keys == old(table.owner).Keys + if newFd >= 0 then {a} else {}
      ensures newFd == -EMFILE ==> a !in master.assocs && Full(old(table.sockets[..]), tableSize)
    {
      ghost var s := master.View();
      var i := table.sockets[fd].socket;
      assert ListOk(s, i, a) && AssocOk(s, a);
      var ok := master.PeelOffAssociation(i, a);
      if ok {
        PeelOffStaysOff(s, i, a);
        newFd := Place(fd, a, tableSize);
      } else {
        var deleted;
        newFd, deleted := table.PeelOff(fd, 0, tableSize);
      }
    }

    /** The second half of sctp_peeloff(). */
    method Place(fd: nat, a: AssocId, tableSize: nat) returns (newFd: int)
      requires Valid() && Backed() && fd < FD_SETSIZE && a in OffLists(master.View()) && a !in table.owner
      modifies master, table, table.sockets
      ensures Valid() && Backed()
      ensures table.owner.Keys == old(table.owner).Keys + if newFd >= 0 then {a} else {}
      ensures newFd == -EMFILE ==> a !in master.assocs && Full(old(table.sockets[..]), tableSize)
    {
      var deleted;
      newFd, deleted := table.PeelOff(fd, a, tableSize);
      if deleted {
        assert AssocOk(master.View(), a);
        master.CloseAssociation(a, false, false);
      }
    }

    /** The end of connect() on a descriptor: the slot gets the association, if it was established. */
    method Connect(fd: nat, a: AssocId, blocking: bool)
      requires Valid() && Backed() && fd < FD_SETSIZE && table.sockets[fd].Sctp? && table.sockets[fd].connectionOriented
      requires table.sockets[fd].assoc == 0 && a !in table.owner
      requires a in OffLists(master.View()) && a in master.inflight
      modifies master, table, table.sockets
      ensures Valid() && Backed()
      ensures table.owner.Keys == old(table.owner).Keys + if !blocking || old(master.assocs)[a].up then {a} else {}
    {
      assert AssocOk(master.View(), a);
      var established := master.AssociateEnd(a, blocking);
      Point(fd, if established then a else 0);
    }

    /** The slot gets the association, or none (0). */
    method Point(fd: nat, a: AssocId)
      requires Valid() && Backed() && fd < FD_SETSIZE && table.sockets[fd].Sctp? && table.sockets[fd].connectionOriented
      requires table.sockets[fd].assoc == 0 && a !in table.owner && (a != 0 ==> a in OffLists(master.View()))
      modifies table, table.sockets
      ensures Valid() && Backed() && table.owner.Keys == old(table.owner).Keys + if a != 0 then {a} else {}
    {
      ConnectedKeys(table.owner, a, table.sockets[fd].socket);
      table.Connect(fd, a);
    }

    /** close() on a descriptor: its association is deleted, and its socket unbound if no other slot shares
        it; that stops the program if an association of the socket is left. */
    method Close(fd: nat, lingers: bool, waits: bool) returns (alive: bool)
      requires Valid() && Backed() && 0 < fd < FD_SETSIZE && table.sockets[fd].Sctp?
      modifies master, table, table.sockets
      ensures Valid() && Backed() && table.sockets[fd] == Invalid
      ensures table.owner.Keys == old(table.owner).Keys - {old(table.sockets[fd]).assoc}
      ensures alive && !Held(table.sockets[..], old(table.sockets[fd]).socket) ==>
                old(table.sockets[fd]).socket !in master.sockets
    {
      var i := table.sockets[fd].socket;
      CloseSlot(fd, lingers && waits, lingers && !waits);
      alive := true;
      if i !in table.live && i in master.sockets {
        alive := master.Unbind(i, lingers && !waits);
      }
    }

    method CloseSlot(fd: nat, shutdown: bool, abort: bool)
      requires Valid() && Backed() && 0 < fd < FD_SETSIZE && table.sockets[fd].Sctp?
      modifies master, table, table.sockets
      ensures Valid() && Backed() && table.sockets[fd] == Invalid
      ensures table.owner.Keys == old(table.owner).Keys - {old(table.sockets[fd]).assoc}
    {
      var d := table.sockets[fd];
      assert table.sockets[..][fd] == d;
      if d.assoc != 0 {
        DeleteHeld(d.assoc, shutdown, abort);
      }
      var _ := table.Close(fd);
    }

    method DeleteHeld(a: AssocId, shutdown: bool, abort: bool)
      requires Valid() && Backed() && a in table.owner
      modifies master
      ensures Valid() && a !in master.assocs && table.owner.Keys - {a} <= OffLists(master.View())
    {
      assert AssocOk(master.View(), a);
      master.CloseAssociation(a, shutdown, abort);
    }

    // ----- Whole runs -----

    /** Carries one happening out, unless it cannot happen now.  `intact` says whether every slot still
        has its association. */
    method Happen(h: Happening, tableSize: nat) returns (alive: bool, intact: bool)
      requires Valid() && Backed()
      modifies master, table, table.sockets
      ensures Valid() && (intact <==> Backed())
      ensures intact <==> !CutsOff(old(master.View()), old(table.owner).Keys, h)
    {
      alive, intact := true, true;
      match h {
        case Below(FromLibrary(e)) => Callback(e);
        case Below(Application(c)) => alive, intact := HappenBelow(c);
        case Open(i, stream) =>
          if i !in table.live {
            var _ := table.NewSocket(i, stream, tableSize);
          }
        case AcceptOn(fd) =>
          if Bound(fd) {
            var newFd;
            newFd, alive := Accept(fd, tableSize);
          }
        case PeelOffFrom(fd, a) =>
          if Bound(fd) && !table.sockets[fd].stream {
            var _ := PeelOff(fd, a, tableSize);
          }
        case Connected(fd, a, blocking) =>
          if Bound(fd) && table.sockets[fd].connectionOriented && table.sockets[fd].assoc == 0
             && a !in table.owner && a in master.inflight && master.IsOffLists(a) {
            Connect(fd, a, blocking);
          }
        case CloseFd(fd, lingers, waits) =>
          if 0 < fd < FD_SETSIZE && table.sockets[fd].Sctp? {
            alive := Close(fd, lingers, waits);
          }
      }
    }

    /** A slot that stands for a bound socket or one of its associations. */
    predicate Bound(fd: int)
      requires table.sockets.Length == FD_SETSIZE
      reads this, master, table.sockets
    {
      0 <= fd < FD_SETSIZE && table.sockets[fd].Sctp? && table.sockets[fd].socket in master.sockets
    }

    method HappenBelow(c: Engine.AppCall) returns (alive: bool, intact: bool)
      requires Valid() && Backed()
      modifies master
      ensures Valid() && (intact <==> Backed())
      ensures intact <==> !CallCutsOff(old(master.View()), table.owner.Keys, c)
    {
      alive, intact := true, true;
      if c.OnAssociation? && c.a in table.owner && !c.use.Sending? {
        if c.use.Sent? && c.a in master.inflight {
          intact := SendEnds(c.a, c.use.eof, c.use.abort);
        }
      } else {
        alive := Call(c);
      }
    }

    method SendEnds(a: AssocId, eof: bool, abort: bool) returns (intact: bool)
      requires Valid() && Backed() && a in table.owner && a in master.inflight
      modifies master
      ensures Valid() && (intact <==> Backed())
      ensures intact <==> Removed(old(master.View()), a, eof || abort) == {}
    {
      assert AssocOk(master.View(), a);
      intact := !((eof || abort) && master.sockets[master.assocs[a].socket].autoConnect);
      EndSend(a, eof, abort);
    }

    /**
      * Whole runs of callbacks, calls and descriptor calls, in any order and number, up to one that stops
      * the program.  After the first `n`, every association that a slot holds is alive, except exactly if
      * the last of them was the end of a send that closed one on an auto-connect socket; that send
      * deletes the association under its slot, and the run ends.
      */
    method Run(happenings: seq<Happening>, tableSize: nat) returns (n: nat, alive: bool, intact: bool)
      requires Valid() && Backed()
      modifies master, table, table.sockets
      ensures Valid() && n <= |happenings| && (intact <==> Backed())
      ensures alive && intact ==> n == |happenings|
      ensures !intact ==> n > 0 && EndsClosing(happenings[n - 1])
    {
      n, alive, intact := 0, true, true;
      while n < |happenings| && alive && intact
        invariant Valid() && n <= |happenings| && (intact <==> Backed())
        invariant !intact ==> n > 0 && EndsClosing(happenings[n - 1])
      {
        alive, intact := Happen(happenings[n], tableSize);
        n := n + 1;
      }
    }
  }

  // ----- A run that cuts a slot off -----

  /** A peer's association, listed on an auto-connect socket, is peeled off, and a send holds it. */
  method PeeledOffAndSending(m: Engine.SocketMaster, subscribed: Subscription)
    requires Inv(m.View()) && m.dying == {} && m.lib.used == {} && m.lib.usedInstances == {}
    modifies m
    ensures Inv(m.View()) && m.dying == {} && 7 in OffLists(m.View()) && 7 in m.inflight
    ensures m.sockets[m.assocs[7].socket].autoConnect
  {
    Engine.Waiting(m, subscribed);
    m.CheckAutoConnect(1);
    assert ListOk(m.View(), 1, 7);
    var _ := m.PeelOffAssociation(1, 7);
    var _ := m.SendBegin(7, false, true, false);
  }

  /** A new descriptor table gets a slot for a UDP-like socket and one for its association. */
  method SlotForPeeledOff(table: DescriptorTable)
    requires table.Valid() && table.live == {} && table.owner == map[]
    requires forall i :: 2 < i < FD_SETSIZE ==> table.sockets[i] == Invalid
    modifies table, table.sockets
    ensures table.Valid() && table.owner == map[7 := 1]
  {
    assert table.sockets[..][3] == Invalid && table.sockets[..][4] == Invalid;
    var fd := table.NewSocket(1, false, FD_SETSIZE);
    assert table.sockets[..][3] == Invalid || table.sockets[..][4] == Invalid;
    var _, _ := table.PeelOff(fd, 7, FD_SETSIZE);
  }

  /** MSG_EOF then deletes the association under its slot. */
  method PeeledOffAndClosed(subscribed: Subscription) returns (e: Endpoint)
    ensures fresh(e) && e.Valid() && !e.Backed()
  {
    e := new Endpoint();
    PeeledOffAndSending(e.master, subscribed);
    SlotForPeeledOff(e.table);
    e.EndSend(7, true, false);
  }
}
