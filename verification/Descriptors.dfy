/**
  * The table that maps file descriptors to system descriptors and SCTP sockets.  Several slots may
  * share one SCTPSocket (accepted and peeled-off associations); it is deleted with the last of them.
  */
module Descriptors {

  import opened Basics

  type SocketId = nat

  /** `assoc` is 0 when the slot stands for the socket itself. */
  datatype Descriptor =
    | Invalid
    | System(fd: int)
    | Sctp(socket: SocketId, assoc: AssocId, connectionOriented: bool, stream: bool)

  const FD_SETSIZE := 1024
  const EBADF := 9
  const ENXIO := 6
  const EMFILE := 24
  const EINVAL := 22
  const EOPNOTSUPP := 95

  predicate Holds(d: Descriptor, s: SocketId) {
    d.Sctp? && d.socket == s
  }

  predicate HoldsAssoc(d: Descriptor, a: AssocId) {
    d.Sctp? && d.assoc == a
  }

  ghost predicate Held(t: seq<Descriptor>, s: SocketId) {
    exists i :: 0 <= i < |t| && Holds(t[i], s)
  }

  ghost predicate HeldAssoc(t: seq<Descriptor>, a: AssocId) {
    exists i :: 0 <= i < |t| && HoldsAssoc(t[i], a)
  }

  /** Two slots do not stand for the same association, nor both for the same socket itself. */
  predicate Different(d: Descriptor, e: Descriptor) {
    d.Sctp? && e.Sctp? ==> d.assoc != e.assoc || (d.assoc == 0 && d.socket != e.socket)
  }

  ghost predicate AllDifferent(t: seq<Descriptor>) {
    forall i, j :: 0 <= i < j < |t| ==> Different(t[i], t[j])
  }

  /**
    * Every SCTP slot points to a live socket, every live socket is held by some slot, and every
    * association the application holds sits in exactly one slot, which belongs to its socket; at most
    * one slot stands for a socket itself.
    */
  ghost predicate Ownership(t: seq<Descriptor>, live: set<SocketId>, owner: map<AssocId, SocketId>) {
    SlotsOwned(t, live, owner) && AllHeld(t, live, owner) && AllDifferent(t)
  }

  ghost predicate SlotsOwned(t: seq<Descriptor>, live: set<SocketId>, owner: map<AssocId, SocketId>) {
    && (forall i :: 0 <= i < |t| && t[i].Sctp? ==> t[i].socket in live)
    && (forall i :: 0 <= i < |t| && t[i].Sctp? && t[i].assoc != 0 ==>
          t[i].assoc in owner && owner[t[i].assoc] == t[i].socket)
  }

  ghost predicate AllHeld(t: seq<Descriptor>, live: set<SocketId>, owner: map<AssocId, SocketId>) {
    && (forall s <- live :: Held(t, s))
    && (forall a <- owner :: a != 0 && HeldAssoc(t, a))
  }

  /** No slot below the process's descriptor limit is free. */
  predicate Full(t: seq<Descriptor>, tableSize: nat) {
    forall i :: 0 <= i < |t| && i < tableSize ==> !t[i].Invalid?
  }

  /** Some other slot, from slot `from` on, holds the same socket. */
  ghost predicate Shared(t: seq<Descriptor>, fd: nat, from: nat)
    requires fd < |t| && t[fd].Sctp?
  {
    exists i :: from <= i < |t| && i != fd && Holds(t[i], t[fd].socket)
  }

  /** A new descriptor is handed out for a socket or an association that no slot has yet. */
  lemma PlaceKeeps(t: seq<Descriptor>, live: set<SocketId>, owner: map<AssocId, SocketId>, fd: nat, d: Descriptor)
    requires Ownership(t, live, owner) && fd < |t| && t[fd].Invalid?
    requires d.Sctp? ==> d.assoc !in owner
    requires d.Sctp? ==> (d.assoc != 0 <==> d.socket in live)
    ensures var t' := t[fd := d];
            if d.Sctp? then
              Ownership(t', live + {d.socket}, if d.assoc != 0 then owner[d.assoc := d.socket] else owner)
            else Ownership(t', live, owner)
  {
    var t' := t[fd := d];
    HoldersStay(t, live, owner, fd, d);
    if d.Sctp? {
      assert Holds(t'[fd], d.socket) && HoldsAssoc(t'[fd], d.assoc);
    }
  }

  /** Writing to a slot that holds nothing takes nothing away. */
  lemma HoldersStay(t: seq<Descriptor>, live: set<SocketId>, owner: map<AssocId, SocketId>, fd: nat, d: Descriptor)
    requires Ownership(t, live, owner) && fd < |t| && !t[fd].Sctp?
    ensures forall s <- live :: Held(t[fd := d], s)
    ensures forall a <- owner :: HeldAssoc(t[fd := d], a)
  {
    forall s <- live ensures Held(t[fd := d], s) {
      var i :| 0 <= i < |t| && Holds(t[i], s);
      assert Holds(t[fd := d][i], s);
    }
    forall a <- owner ensures HeldAssoc(t[fd := d], a) {
      var i :| 0 <= i < |t| && HoldsAssoc(t[i], a);
      assert HoldsAssoc(t[fd := d][i], a);
    }
  }

  /** So it keeps ownership unless it adds a holder. */
  lemma NothingTaken(t: seq<Descriptor>, live: set<SocketId>, owner: map<AssocId, SocketId>, fd: nat, d: Descriptor)
    requires Ownership(t, live, owner) && fd < |t| && !t[fd].Sctp? && !d.Sctp?
    ensures Ownership(t[fd := d], live, owner)
  {
    var t' := t[fd := d];
    HoldersStay(t, live, owner, fd, d);
    assert AllDifferent(t') by {
      forall i, j | 0 <= i < j < |t'| ensures Different(t'[i], t'[j]) {
        assert Different(t[i], t[j]);
      }
    }
  }

  /** What closing an SCTP slot leaves: the slot's association is deleted, and its socket if no slot
      from 1 on shares it. */
  ghost function LiveAfterClose(t: seq<Descriptor>, live: set<SocketId>, fd: nat): set<SocketId>
    requires fd < |t| && t[fd].Sctp?
  {
    if Shared(t, fd, 1) then live else live - {t[fd].socket}
  }

  /**
    * Closing keeps ownership exactly unless slot 0 is the only other holder of the socket: the scan
    * for other holders starts at slot 1, so the socket would be deleted under slot 0.
    */
  lemma CloseKeepsIff(t: seq<Descriptor>, live: set<SocketId>, owner: map<AssocId, SocketId>, fd: nat)
    requires Ownership(t, live, owner) && fd < |t| && t[fd].Sctp?
    ensures Ownership(t[fd := Invalid], LiveAfterClose(t, live, fd), owner - {t[fd].assoc})
            <==> (Shared(t, fd, 0) ==> Shared(t, fd, 1))
  {
    var t', s := t[fd := Invalid], t[fd].socket;
    if Shared(t, fd, 0) && !Shared(t, fd, 1) {
      var i :| 0 <= i < |t| && i != fd && Holds(t[i], s);
      assert t'[i].Sctp? && t'[i].socket !in LiveAfterClose(t, live, fd);
    } else {
      CloseKeeps(t, live, owner, fd);
    }
  }

  /** It happens to a process that closes its standard descriptors and may have two: socket() takes
      slot 1, accept() slot 0, and closing slot 1 deletes the socket under slot 0. */
  lemma ClosedUnderSlotZero(d: Descriptor)
    requires d == Sctp(1, 7, true, true)
    ensures var t := [d, d.(assoc := 0)] + seq(FD_SETSIZE - 2, _ => Invalid);
            && Ownership(t, {1}, map[7 := 1])
            && !Ownership(t[1 := Invalid], LiveAfterClose(t, {1}, 1), map[7 := 1] - {0})
  {
    var t := [d, d.(assoc := 0)] + seq(FD_SETSIZE - 2, _ => Invalid);
    assert Holds(t[0], 1) && HoldsAssoc(t[0], 7);
    CloseKeepsIff(t, {1}, map[7 := 1], 1);
  }

  /** Slot 0 never holds a socket, so closing keeps ownership. */
  lemma ClosedLeaves(t: seq<Descriptor>, live: set<SocketId>, owner: map<AssocId, SocketId>, fd: nat)
    requires Ownership(t, live, owner) && fd < |t| && t[fd].Sctp? && t[0].System?
    ensures Ownership(t[fd := Invalid], LiveAfterClose(t, live, fd), owner - {t[fd].assoc})
  {
    if Shared(t, fd, 0) {
      var i :| 0 <= i < |t| && i != fd && Holds(t[i], t[fd].socket);
      assert i != 0;
    }
    CloseKeepsIff(t, live, owner, fd);
  }

  lemma CloseKeeps(t: seq<Descriptor>, live: set<SocketId>, owner: map<AssocId, SocketId>, fd: nat)
    requires Ownership(t, live, owner) && fd < |t| && t[fd].Sctp?
    requires Shared(t, fd, 0) ==> Shared(t, fd, 1)
    ensures Ownership(t[fd := Invalid], LiveAfterClose(t, live, fd), owner - {t[fd].assoc})
  {
    var t', owner' := t[fd := Invalid], owner - {t[fd].assoc};
    assert AllDifferent(t') by {
      CloseDiffers(t, fd);
    }
    assert AllHeld(t', LiveAfterClose(t, live, fd), owner') by {
      CloseHolders(t, live, owner, fd);
      assert forall a <- owner' :: a in owner && a != t[fd].assoc;
    }
    assert SlotsOwned(t', LiveAfterClose(t, live, fd), owner') by {
      CloseSlots(t, live, owner, fd);
      assert forall i :: 0 <= i < |t'| ==> t'[i] == if i == fd then Invalid else t[i];
    }
  }

  lemma CloseDiffers(t: seq<Descriptor>, fd: nat)
    requires AllDifferent(t) && fd < |t|
    ensures AllDifferent(t[fd := Invalid])
  {
    var t' := t[fd := Invalid];
    forall i, j | 0 <= i < j < |t'| ensures Different(t'[i], t'[j]) {
      assert Different(t[i], t[j]);
    }
  }

  lemma CloseHolders(t: seq<Descriptor>, live: set<SocketId>, owner: map<AssocId, SocketId>, fd: nat)
    requires Ownership(t, live, owner) && fd < |t| && t[fd].Sctp?
    ensures forall r <- LiveAfterClose(t, live, fd) :: Held(t[fd := Invalid], r)
    ensures forall b <- owner :: b != t[fd].assoc ==> HeldAssoc(t[fd := Invalid], b)
  {
    var t', s, a := t[fd := Invalid], t[fd].socket, t[fd].assoc;
    forall r <- LiveAfterClose(t, live, fd) ensures Held(t', r) {
      if r == s {
        var i :| 1 <= i < |t| && i != fd && Holds(t[i], s);
        assert Holds(t'[i], s);
      } else {
        var i :| 0 <= i < |t| && Holds(t[i], r);
        assert Holds(t'[i], r);
      }
    }
    forall b <- owner | b != a ensures HeldAssoc(t', b) {
      var i :| 0 <= i < |t| && HoldsAssoc(t[i], b);
      assert HoldsAssoc(t'[i], b);
    }
  }

  lemma CloseSlots(t: seq<Descriptor>, live: set<SocketId>, owner: map<AssocId, SocketId>, fd: nat)
    requires Ownership(t, live, owner) && fd < |t| && t[fd].Sctp?
    requires Shared(t, fd, 0) ==> Shared(t, fd, 1)
    ensures var t' := t[fd := Invalid];
            forall i :: 0 <= i < |t'| && t'[i].Sctp? ==>
              && t'[i].socket in LiveAfterClose(t, live, fd)
              && (t'[i].assoc != 0 ==> t'[i].assoc in owner && t'[i].assoc != t[fd].assoc)
  {
    forall i | 0 <= i < |t| && i != fd && t[i].Sctp? ensures t[i].socket in LiveAfterClose(t, live, fd) {
      if t[i].socket == t[fd].socket {
        assert Holds(t[i], t[fd].socket);
      }
    }
  }

  function Connected(owner: map<AssocId, SocketId>, a: AssocId, s: SocketId): map<AssocId, SocketId> {
    if a != 0 then owner[a := s] else owner
  }

  /** Connecting keeps ownership exactly if the slot held no association before: another one stays alive
      with no slot left for it. */
  lemma ConnectKeepsIff(t: seq<Descriptor>, live: set<SocketId>, owner: map<AssocId, SocketId>, fd: nat, a: AssocId)
    requires Ownership(t, live, owner) && fd < |t| && t[fd].Sctp? && a !in owner
    ensures Ownership(t[fd := t[fd].(assoc := a)], live, Connected(owner, a, t[fd].socket)) <==> t[fd].assoc == 0
  {
    var t', was := t[fd := t[fd].(assoc := a)], t[fd].assoc;
    if was != 0 {
      forall i | 0 <= i < |t'| ensures !HoldsAssoc(t'[i], was) {
        if i != fd {
          assert if i < fd then Different(t[i], t[fd]) else Different(t[fd], t[i]);
        }
      }
      assert was in Connected(owner, a, t[fd].socket) && !HeldAssoc(t', was);
    } else {
      ConnectKeeps(t, live, owner, fd, a);
    }
  }

  /** It happens to any descriptor that is connected twice. */
  lemma ConnectedTwice(first: Descriptor)
    requires first == Sctp(1, 7, true, true)
    ensures var t := seq(FD_SETSIZE - 1, i => if i <= 2 then System(i) else Invalid) + [first];
            && Ownership(t, {1}, map[7 := 1])
            && !Ownership(t[FD_SETSIZE - 1 := first.(assoc := 8)], {1}, Connected(map[7 := 1], 8, 1))
  {
    var t := seq(FD_SETSIZE - 1, i => if i <= 2 then System(i) else Invalid) + [first];
    assert Holds(t[FD_SETSIZE - 1], 1) && HoldsAssoc(t[FD_SETSIZE - 1], 7);
    ConnectKeepsIff(t, {1}, map[7 := 1], FD_SETSIZE - 1, 8);
  }

  lemma ConnectKeeps(t: seq<Descriptor>, live: set<SocketId>, owner: map<AssocId, SocketId>, fd: nat, a: AssocId)
    requires Ownership(t, live, owner) && fd < |t| && t[fd].Sctp? && a !in owner && t[fd].assoc == 0
    ensures Ownership(t[fd := t[fd].(assoc := a)], live, Connected(owner, a, t[fd].socket))
  {
    ConnectHolders(t, live, owner, fd, a);
    ConnectDiffers(t, live, owner, fd, a);
    ConnectSlots(t, live, owner, fd, a);
  }

  lemma ConnectDiffers(t: seq<Descriptor>, live: set<SocketId>, owner: map<AssocId, SocketId>, fd: nat, a: AssocId)
    requires SlotsOwned(t, live, owner) && AllDifferent(t) && fd < |t| && t[fd].Sctp? && a !in owner && t[fd].assoc == 0
    ensures AllDifferent(t[fd := t[fd].(assoc := a)])
  {
    var t' := t[fd := t[fd].(assoc := a)];
    forall i, j | 0 <= i < j < |t'| ensures Different(t'[i], t'[j]) {
      assert Different(t[i], t[j]);
    }
  }

  lemma ConnectSlots(t: seq<Descriptor>, live: set<SocketId>, owner: map<AssocId, SocketId>, fd: nat, a: AssocId)
    requires SlotsOwned(t, live, owner) && fd < |t| && t[fd].Sctp? && a !in owner
    ensures SlotsOwned(t[fd := t[fd].(assoc := a)], live, Connected(owner, a, t[fd].socket))
  {
  }

  lemma ConnectHolders(t: seq<Descriptor>, live: set<SocketId>, owner: map<AssocId, SocketId>, fd: nat, a: AssocId)
    requires Ownership(t, live, owner) && fd < |t| && t[fd].Sctp? && a !in owner && t[fd].assoc == 0
    ensures var t' := t[fd := t[fd].(assoc := a)];
            && (forall s <- live :: Held(t', s))
            && (forall b <- Connected(owner, a, t[fd].socket) :: b != 0 && HeldAssoc(t', b))
  {
    var t' := t[fd := t[fd].(assoc := a)];
    forall s <- live ensures Held(t', s) {
      var i :| 0 <= i < |t| && Holds(t[i], s);
      assert Holds(t'[i], s);
    }
    forall b <- Connected(owner, a, t[fd].socket) ensures b != 0 && HeldAssoc(t', b) {
      if b == a {
        assert HoldsAssoc(t'[fd], b);
      } else {
        var i :| 0 <= i < |t| && HoldsAssoc(t[i], b);
        assert HoldsAssoc(t'[i], b);
      }
    }
  }

  class DescriptorTable {
    const sockets: array<Descriptor>
    var live: set<SocketId>
    var owner: map<AssocId, SocketId>

    /** Slot 0 stays a system descriptor. */
    ghost predicate Valid()
      reads this, sockets
    {
      sockets.Length == FD_SETSIZE && sockets[0].System? && Ownership(sockets[..], live, owner)
    }

    constructor ()
      ensures Valid() && live == {} && owner == map[] && fresh(sockets)
      ensures forall i :: 0 <= i < FD_SETSIZE ==> sockets[i] == if i <= 2 then System(i) else Invalid
    {
      sockets := new Descriptor[FD_SETSIZE](i => if 0 <= i <= 2 then System(i) else Invalid);
      live, owner := {}, map[];
    }

    /** setSocket: the highest free slot below the process's descriptor limit. */
    method SetSocket(d: Descriptor, tableSize: nat) returns (fd: int)
      requires sockets.Length == FD_SETSIZE
      modifies sockets
      ensures fd == -EMFILE || 0 <= fd < FD_SETSIZE
      ensures fd == -EMFILE ==> sockets[..] == old(sockets[..]) && Full(sockets[..], tableSize)
      ensures fd == -EMFILE <==> forall i :: 0 <= i < FD_SETSIZE && i < tableSize ==> !old(sockets[i]).Invalid?
      ensures fd >= 0 ==> fd < tableSize && old(sockets[fd]).Invalid? && sockets[..] == old(sockets[..])[fd := d]
                          && forall i :: fd < i < FD_SETSIZE && i < tableSize ==> !old(sockets[i]).Invalid?
    {
      var i := (if tableSize < FD_SETSIZE then tableSize else FD_SETSIZE) - 1;
      while i >= 0
        invariant -1 <= i < FD_SETSIZE && i < tableSize
        invariant forall k :: i < k < FD_SETSIZE && k < tableSize ==> !sockets[k].Invalid?
        invariant sockets[..] == old(sockets[..])
      {
        if sockets[i].Invalid? {
          sockets[i] := d;
          return i;
        }
        i := i - 1;
      }
      return -EMFILE;
    }

    /** mayRemoveSocket. */
    method MayRemove(fd: nat) returns (r: bool)
      requires sockets.Length == FD_SETSIZE && fd < FD_SETSIZE && sockets[fd].Sctp?
      ensures r <==> !Shared(sockets[..], fd, 1)
    {
      var s := sockets[fd].socket;
      for i := 1 to FD_SETSIZE
        invariant forall k :: 1 <= k < i && k != fd ==> !Holds(sockets[k], s)
      {
        if i != fd && sockets[i].Sctp? && sockets[i].socket == s {
          assert Holds(sockets[..][i], s);
          return false;
        }
      }
      return true;
    }

    /** Deletes the association of a slot that is being closed, and its socket if no other slot shares it. */
    method LetGo(fd: nat)
      requires Valid() && fd < FD_SETSIZE && sockets[fd].Sctp?
      modifies this`live, this`owner
      ensures live == LiveAfterClose(sockets[..], old(live), fd) && owner == old(owner) - {sockets[fd].assoc}
    {
      assert 0 !in owner;
      var last := MayRemove(fd);
      if sockets[fd].assoc != 0 {
        owner := owner - {sockets[fd].assoc};
      }
      assert owner == old(owner) - {sockets[fd].assoc};
      if last {
        live := live - {sockets[fd].socket};
      }
    }

    /** ext_close: 0, -EBADF or -ENXIO. */
    method Close(fd: int) returns (result: int)
      requires Valid()
      modifies this, sockets
      ensures !(0 <= fd < FD_SETSIZE) ==> result == -EBADF
      ensures 0 <= fd < FD_SETSIZE && old(sockets[fd]).Invalid? ==> result == -ENXIO
      ensures 0 <= fd < FD_SETSIZE && !old(sockets[fd]).Invalid? ==>
                result == 0 && sockets[..] == old(sockets[..])[fd := Invalid]
      ensures result != 0 || old(sockets[fd]).System? ==> live == old(live) && owner == old(owner)
      ensures result == 0 && old(sockets[fd]).Sctp? ==>
                && live == LiveAfterClose(old(sockets[..]), old(live), fd)
                && owner == old(owner) - {old(sockets[fd]).assoc}
      ensures result != 0 ==> sockets[..] == old(sockets[..])
      ensures fd != 0 ==> Valid()
    {
      if !(0 <= fd < FD_SETSIZE) {
        return -EBADF;
      }
      ghost var t := sockets[..];
      match sockets[fd] {
        case Sctp(_, _, _, _) =>
          ClosedLeaves(t, live, owner, fd);
          LetGo(fd);
        case System(_) =>
          NothingTaken(t, live, owner, fd, Invalid);
        case Invalid =>
          return -ENXIO;
      }
      sockets[fd] := Invalid;
      assert sockets[..] == t[fd := Invalid];
      return 0;
    }

    /** ext_socket for SCTP: a new socket in a new slot, or deleted again if there is none. */
    method NewSocket(s: SocketId, stream: bool, tableSize: nat) returns (fd: int)
      requires Valid() && s !in live && 0 !in owner
      modifies this, sockets
      ensures Valid() && owner == old(owner)
      ensures fd >= 0 ==> live == old(live) + {s} && 0 <= fd < FD_SETSIZE
                          && sockets[..] == old(sockets[..])[fd := Sctp(s, 0, stream, stream)]
      ensures fd < 0 ==> fd == -EMFILE && Full(old(sockets[..]), tableSize) && live == old(live) && sockets[..] == old(sockets[..])
    {
      ghost var t := sockets[..];
      var d := Sctp(s, 0, stream, stream);
      fd := SetSocket(d, tableSize);
      if fd >= 0 {
        PlaceKeeps(t, live, owner, fd, d);
        live := live + {s};
      }
    }

    /** ext_accept: a new slot for an accepted association, sharing the listening slot's socket.  With a
        full table the source deletes the association and goes on to use its null pointer, which stops the
        program. */
    method Accept(fd: nat, a: AssocId, tableSize: nat) returns (newFd: int, alive: bool)
      requires Valid() && fd < FD_SETSIZE && sockets[fd].Sctp? && a != 0 && a !in owner
      modifies this, sockets
      ensures Valid() && live == old(live)
      ensures alive <==> !Full(old(sockets[..]), tableSize)
      ensures !alive ==> sockets[..] == old(sockets[..]) && owner == old(owner)
      ensures alive ==>
                && owner == old(owner)[a := old(sockets[fd]).socket]
                && 0 <= newFd < FD_SETSIZE && old(sockets[newFd]).Invalid?
                && sockets[..] == old(sockets[..])[newFd := old(sockets[fd]).(connectionOriented := true, assoc := a)]
    {
      ghost var t := sockets[..];
      var d := sockets[fd].(connectionOriented := true, assoc := a);
      newFd := SetSocket(d, tableSize);
      alive := newFd >= 0;
      if alive {
        PlaceKeeps(t, live, owner, newFd, d);
        assert live + {d.socket} == live;
        owner := owner[a := d.socket];
      }
    }

    /** sctp_peeloff; `a` is the association that the socket's peelOff found, or 0.  It is deleted again
        if there is no slot for it. */
    method PeelOff(fd: int, a: AssocId, tableSize: nat) returns (newFd: int, deleted: bool)
      requires Valid() && a !in owner
      modifies this, sockets
      ensures Valid() && live == old(live)
      ensures !(0 <= fd < FD_SETSIZE) ==> newFd == -EBADF
      ensures 0 <= fd < FD_SETSIZE && !old(sockets[fd]).Sctp? ==> newFd == -EOPNOTSUPP
      ensures 0 <= fd < FD_SETSIZE && old(sockets[fd]).Sctp? && (old(sockets[fd]).stream || a == 0) ==> newFd == -EINVAL
      ensures newFd < 0 ==> sockets[..] == old(sockets[..]) && owner == old(owner)
      ensures 0 <= fd < FD_SETSIZE && old(sockets[fd]).Sctp? && !old(sockets[fd]).stream && a != 0 ==>
                newFd >= 0 || newFd == -EMFILE
      ensures deleted <==> newFd == -EMFILE
      ensures newFd == -EMFILE ==> Full(old(sockets[..]), tableSize)
      ensures newFd >= 0 ==>
                && newFd < FD_SETSIZE && 0 <= fd < FD_SETSIZE && old(sockets[fd]).Sctp?
                && old(sockets[newFd]).Invalid? && owner == old(owner)[a := old(sockets[fd]).socket]
                && sockets[..] == old(sockets[..])[newFd := old(sockets[fd]).(connectionOriented := true, assoc := a)]
    {
      if !(0 <= fd < FD_SETSIZE) {
        return -EBADF, false;
      }
      if !sockets[fd].Sctp? {
        return -EOPNOTSUPP, false;
      }
      if sockets[fd].stream || a == 0 {
        return -EINVAL, false;
      }
      ghost var t := sockets[..];
      var d := sockets[fd].(connectionOriented := true, assoc := a);
      newFd := SetSocket(d, tableSize);
      if newFd >= 0 {
        PlaceKeeps(t, live, owner, newFd, d);
        assert live + {d.socket} == live;
        owner := owner[a := d.socket];
      }
      deleted := newFd < 0;
    }

    /**
      * ext_connect on a connection-oriented descriptor: the slot gets the association that associate
      * made, or none (0) if that failed.  One that it held before is lost.
      */
    method Connect(fd: nat, a: AssocId)
      requires Valid() && fd < FD_SETSIZE && sockets[fd].Sctp? && sockets[fd].connectionOriented && a !in owner
      modifies sockets, this`owner
      ensures sockets[..] == old(sockets[..])[fd := old(sockets[fd]).(assoc := a)]
      ensures owner == Connected(old(owner), a, old(sockets[fd]).socket)
      ensures Valid() <==> old(sockets[fd]).assoc == 0
    {
      ghost var t := sockets[..];
      ConnectKeepsIff(t, live, owner, fd, a);
      if a != 0 {
        owner := owner[a := sockets[fd].socket];
      }
      sockets[fd] := sockets[fd].(assoc := a);
      assert sockets[..] == t[fd := t[fd].(assoc := a)];
    }

    /** Whole runs of socket, connect, accept, peeloff and close, in any order and number, keep ownership
        as long as no descriptor is connected twice, up to an accept that stops the program. */
    method Run(ops: seq<Op>, tableSize: nat) returns (n: nat, alive: bool)
      requires Valid() && 0 !in owner
      modifies this, sockets
      ensures Valid() && n <= |ops|
      ensures if alive then n == |ops| else n > 0 && ops[n - 1].AcceptOn?
    {
      n, alive := 0, true;
      while n < |ops| && alive
        invariant Valid() && 0 !in owner && n <= |ops|
        invariant !alive ==> n > 0 && ops[n - 1].AcceptOn?
      {
        alive := Carry(ops[n], tableSize);
        n := n + 1;
      }
    }

    method Carry(op: Op, tableSize: nat) returns (alive: bool)
      requires Valid() && 0 !in owner
      modifies this, sockets
      ensures Valid() && 0 !in owner && (!alive ==> op.AcceptOn?)
    {
      alive := true;
      match op {
        case Open(s, stream) =>
          if s !in live {
            var _ := NewSocket(s, stream, tableSize);
          }
        case AcceptOn(fd, a) =>
          if 0 <= fd < FD_SETSIZE && sockets[fd].Sctp? && a != 0 && a !in owner {
            var newFd;
            newFd, alive := Accept(fd, a, tableSize);
          }
        case PeelOffFrom(fd, a) =>
          if a !in owner {
            var _, _ := PeelOff(fd, a, tableSize);
          }
        case ConnectTo(fd, a) =>
          if 0 <= fd < FD_SETSIZE && sockets[fd].Sctp? && sockets[fd].connectionOriented
             && sockets[fd].assoc == 0 && a !in owner {
            Connect(fd, a);
          }
        case CloseFd(fd) =>
          if fd != 0 {
            var _ := Close(fd);
          }
      }
    }
  }

  datatype Op =
    | Open(s: SocketId, stream: bool)
    | AcceptOn(fd: int, a: AssocId)
    | PeelOffFrom(fd: int, a: AssocId)
    | ConnectTo(fd: int, a: AssocId)
    | CloseFd(fd: int)
}
