/** Short runs of the engine from any of its states, and what the application gets from them. */
module EngineScenarios {
  import opened Basics
  import opened Notifications
  import opened EngineState
  import opened EngineEvolution
  import opened EngineCalls
  import opened EngineRouting
  import opened AutoCloseTiming
  import opened Engine
  import Delivery

  /** Data that arrives for a peeled-off association is what a receive on it gets, and a receive on the
      socket that it was peeled off does not. */
  method PeelOffAndReceive(m: SocketMaster, i: Instance, n: Notification, size: nat, flagsIn: Delivery.Flags)
    returns (result: int, chunk: seq<Byte>, flags: Delivery.Flags, blocked: bool)
    requires Inv(m.View()) && m.dying == {} && i in m.sockets && n.assoc in m.sockets[i].connectionless
    requires n.assoc in m.assocs && !m.assocs[n.assoc].shuttingDown && m.assocs[n.assoc].inQueue == []
    requires n.kind == DataArrive && n.unread != [] && size > 0
    modifies m
    ensures Inv(m.View()) && !blocked && result == Min(|n.unread|, size) && chunk == n.unread[..result]
    ensures !flags.notification
    ensures i in m.sockets && m.sockets[i].queue == old(m.sockets)[i].queue
  {
    assert ListOk(m.View(), i, n.assoc);
    var ok := m.PeelOffAssociation(i, n.assoc);
    result, chunk, flags, blocked := ArriveAndReceive(m, i, n, size, flagsIn);
  }

  method ArriveAndReceive(m: SocketMaster, i: Instance, n: Notification, size: nat, flagsIn: Delivery.Flags)
    returns (result: int, chunk: seq<Byte>, flags: Delivery.Flags, blocked: bool)
    requires Inv(m.View()) && m.dying == {} && n.assoc in m.assocs && i in m.sockets && m.assocs[n.assoc].socket == i
    requires m.assocs[n.assoc].peeledOff && m.assocs[n.assoc].inQueue == []
    requires n.kind == DataArrive && n.unread != [] && size > 0
    modifies m
    ensures Inv(m.View()) && !blocked && result == Min(|n.unread|, size) && chunk == n.unread[..result]
    ensures !flags.notification
    ensures i in m.sockets && m.sockets[i].queue == old(m.sockets)[i].queue
  {
    assert AssocOk(m.View(), n.assoc);
    m.Notify(n);
    OwnDataIsRead(m.View(), n, size, flagsIn);
    result, chunk, flags, blocked := m.ReceiveOwn(n.assoc, size, flagsIn, true);
  }

  lemma OwnDataIsRead(s: State, n: Notification, size: nat, flags: Delivery.Flags)
    requires n.assoc in s.assocs && s.assocs[n.assoc].inQueue == [n] && n.kind == DataArrive && n.unread != [] && size > 0
    ensures var p := OwnPass(s, n.assoc, size, flags, true);
            !p.blocked && p.result == Min(|n.unread|, size) && p.chunk == n.unread[..p.result] && !p.flags.notification
    ensures forall r :: ReceivedOwn(s, n.assoc, r).sockets == s.sockets
  {
  }

  /** Data that arrives for any other association of a socket with a global queue is what a receive on
      the socket gets. */
  method ReceiveGlobally(m: SocketMaster, n: Notification, size: nat, flagsIn: Delivery.Flags)
    returns (result: int, chunk: seq<Byte>, flags: Delivery.Flags, blocked: bool)
    requires Inv(m.View()) && m.dying == {} && n.assoc in m.assocs && !m.assocs[n.assoc].peeledOff
    requires m.assocs[n.assoc].socket in m.sockets
    requires m.sockets[m.assocs[n.assoc].socket].globalQueue && m.sockets[m.assocs[n.assoc].socket].queue == []
    requires n.kind == DataArrive && n.unread != [] && size > 0
    modifies m
    ensures Inv(m.View()) && !blocked && result == Min(|n.unread|, size) && chunk == n.unread[..result]
    ensures n.assoc in m.assocs && m.assocs[n.assoc].inQueue == old(m.assocs)[n.assoc].inQueue
  {
    assert AssocOk(m.View(), n.assoc);
    var i := m.assocs[n.assoc].socket;
    m.Notify(n);
    result, chunk, flags, blocked := m.Receive(i, size, flagsIn, true);
  }

  /** The loss of an association that is on no list is read as an event that says so. */
  method LoseAndReceive(m: SocketMaster, a: AssocId, size: nat)
    returns (result: int, chunk: seq<Byte>, flags: Delivery.Flags, blocked: bool)
    requires Inv(m.View()) && m.dying == {} && a in m.assocs && a !in m.lib.ended && a < 0x1_0000_0000
    requires m.assocs[a].socket in m.sockets && Unlisted(m.View(), a)
    requires m.assocs[a].peeledOff || !m.sockets[m.assocs[a].socket].globalQueue
    requires m.assocs[a].inQueue == [] && AssocChange in m.assocs[a].subscribed && size >= 20
    modifies m
    ensures Inv(m.View()) && !blocked && result == 20 == |chunk| && flags.eor && flags.notification
    ensures ReadU16(chunk, 0) == SCTP_ASSOC_CHANGE && ReadU16(chunk, 8) == SCTP_COMM_LOST && ReadU32(chunk, 16) == a
  {
    ghost var s := m.View();
    assert AssocOk(s, a);
    m.CommunicationLost(a);
    LossQueued(s, m.View(), a);
    OwnEventIsRead(m.View(), a, size);
    result, chunk, flags, blocked := m.ReceiveOwn(a, size, Delivery.Flags(true, false, false, false), true);
  }

  lemma OwnEventIsRead(s: State, a: AssocId, size: nat)
    requires a in s.assocs && |s.assocs[a].inQueue| == 1 && s.assocs[a].inQueue[0].kind == AssocChange
    requires AssocChange in s.assocs[a].subscribed && 0 < |s.assocs[a].inQueue[0].unread| <= size
    ensures var p := OwnPass(s, a, size, Delivery.Flags(true, false, false, false), true);
            && !p.blocked && p.chunk == s.assocs[a].inQueue[0].unread && p.result == |p.chunk|
            && p.flags.eor && p.flags.notification
  {
  }

  lemma LossQueued(s: State, t: State, a: AssocId)
    requires Inv(s) && EndHandled(s, t, a, true) && s.dying == {} && a in s.assocs && a < 0x1_0000_0000
    requires s.assocs[a].socket in s.sockets && Unlisted(s, a) && a !in s.closingAssocs
    requires s.assocs[a].peeledOff || !s.sockets[s.assocs[a].socket].globalQueue
    requires s.assocs[a].inQueue == [] && AssocChange in s.assocs[a].subscribed
    ensures a in t.assocs && |t.assocs[a].inQueue| == 1 && Announces(t.assocs[a].inQueue[0], a, SCTP_COMM_LOST, 0, 0)
    ensures t.assocs[a].subscribed == s.assocs[a].subscribed
  {
    EndedStays(s, t, a, true);
    EndIsAnnounced(s, a, true);
  }

  /** Auto-close leaves what was used just now alone until its timeout is over. */
  method JustUsed(m: SocketMaster, ghost a: AssocId, wait: nat)
    requires Inv(m.View()) && a in m.assocs && m.assocs[a].socket in m.sockets && m.assocs[a].lastUsage == m.clock
    requires !m.assocs[a].complete && !m.assocs[a].lost
    requires var timeout := m.sockets[m.assocs[a].socket].autoCloseTimeout; timeout == 0 || wait <= timeout
    modifies m
    ensures Inv(m.View()) && a in m.assocs && m.assocs[a] == old(m.assocs)[a]
    ensures a in m.lib.aborted <==> a in old(m.lib).aborted
  {
    m.Tick(wait);
    ghost var s := m.View();
    m.SocketGarbageCollection();
    assert Spared(s, m.View(), a);
  }

  /** A send counts as use: auto-close leaves the association alone until its timeout is over. */
  method SendAndWait(m: SocketMaster, a: AssocId, wait: nat)
    requires Inv(m.View()) && m.dying == {} && a in m.assocs && a in m.inflight && m.assocs[a].socket in m.sockets
    requires !m.assocs[a].complete && !m.assocs[a].lost
    requires var timeout := m.sockets[m.assocs[a].socket].autoCloseTimeout; timeout == 0 || wait <= timeout
    modifies m
    ensures Inv(m.View()) && a in m.assocs && m.assocs[a].lastUsage == old(m.clock)
    ensures m.assocs[a].shuttingDown == old(m.assocs)[a].shuttingDown && (a in m.lib.aborted <==> a in old(m.lib).aborted)
  {
    assert AssocOk(m.View(), a);
    m.SendEnd(a, false, false);
    JustUsed(m, a, wait);
  }

  /** So does a receive that takes the rest of a record from the global queue ... */
  method ReceiveAndWait(m: SocketMaster, i: Instance, size: nat, flagsIn: Delivery.Flags, wait: nat)
    requires Inv(m.View()) && m.dying == {} && i in m.sockets && m.sockets[i].queue != []
    requires var n := m.sockets[i].queue[0];
             && n.kind == DataArrive && 0 < |n.unread| <= size && !flagsIn.peek && n.assoc in m.assocs
             && m.assocs[n.assoc].socket == i && !m.assocs[n.assoc].complete && !m.assocs[n.assoc].lost
    requires var timeout := m.sockets[i].autoCloseTimeout; timeout == 0 || wait <= timeout
    modifies m
    ensures Inv(m.View())
    ensures var a := old(m.sockets)[i].queue[0].assoc;
            && a in m.assocs && m.assocs[a].lastUsage == old(m.clock) && m.assocs[a].useCount == old(m.assocs)[a].useCount - 1
            && m.assocs[a].shuttingDown == old(m.assocs)[a].shuttingDown && (a in m.lib.aborted <==> a in old(m.lib).aborted)
  {
    ghost var a := m.sockets[i].queue[0].assoc;
    DropGlobalKeeps(m.View(), i);
    var _, _, _, _ := m.Receive(i, size, flagsIn, true);
    JustUsed(m, a, wait);
  }

  /** ... or from an association's own queue. */
  method ReceiveOwnAndWait(m: SocketMaster, a: AssocId, size: nat, flagsIn: Delivery.Flags, wait: nat)
    requires Inv(m.View()) && m.dying == {} && a in m.assocs && m.assocs[a].inQueue != [] && m.assocs[a].socket in m.sockets
    requires var n := m.assocs[a].inQueue[0]; n.kind == DataArrive && 0 < |n.unread| <= size && !flagsIn.peek
    requires !m.assocs[a].complete && !m.assocs[a].lost
    requires var timeout := m.sockets[m.assocs[a].socket].autoCloseTimeout; timeout == 0 || wait <= timeout
    modifies m
    ensures Inv(m.View())
    ensures a in m.assocs && m.assocs[a].lastUsage == old(m.clock) && m.assocs[a].useCount == old(m.assocs)[a].useCount - 1
    ensures m.assocs[a].shuttingDown == old(m.assocs)[a].shuttingDown && (a in m.lib.aborted <==> a in old(m.lib).aborted)
  {
    DropOwnKeeps(m.View(), a);
    var _, _, _, _ := m.ReceiveOwn(a, size, flagsIn, true);
    JustUsed(m, a, wait);
  }

  /** An association that nobody uses any more goes away: it is aborted once four timeouts are over, and
      deleted and released when sctplib reports its end. */
  method AbandonAndWait(m: SocketMaster, i: Instance, a: AssocId, wait: nat)
    requires Inv(m.View()) && m.dying == {} && i in m.sockets && !m.sockets[i].inAutoClose
    requires a in m.sockets[i].connectionless && a in m.assocs && m.assocs[a].useCount == 0
    requires AssocChange !in m.assocs[a].subscribed
    requires m.sockets[i].autoCloseTimeout > 0 && wait > 4 * m.sockets[i].autoCloseTimeout
    modifies m
    ensures Inv(m.View()) && a !in m.assocs && a !in m.lib.assocs && m.lib.released[a] == 1
  {
    assert ListOk(m.View(), i, a) && AssocOk(m.View(), a);
    m.Tick(wait);
    ghost var s := m.View();
    assert AssocOk(s, a) && ListOk(s, i, a);
    m.CheckAutoClose(i);
    Abandoned(s, m.View(), i, a);
    if a in m.assocs {
      ghost var t := m.View();
      m.CommunicationLost(a);
      AbandonedEnds(t, m.View(), i, a);
    }
    assert IdOk(m.View(), a);
  }

  /** A check that is over has aborted the association, or it is gone. */
  lemma Abandoned(s: State, t: State, i: Instance, a: AssocId)
    requires Inv(s) && Inv(t) && Evolves(s, t) && i in s.sockets && s.dying == {}
    requires a in s.sockets[i].connectionless && a in s.assocs && s.assocs[a].useCount == 0
    requires AssocChange !in s.assocs[a].subscribed && Told(t, i, a) && s.sockets[i].autoCloseTimeout > 0
    requires s.clock > s.assocs[a].lastUsage + 4 * s.sockets[i].autoCloseTimeout
    ensures a in s.lib.used && a !in t.closingAssocs && i in t.sockets && t.dying == {}
    ensures t.sockets[i].inAutoClose == s.sockets[i].inAutoClose
    ensures a in t.assocs ==>
              && a in t.lib.assocs && a !in t.lib.ended && a in t.lib.aborted && a in t.sockets[i].connectionless
              && t.assocs[a].socket == i && t.assocs[a].useCount == 0 && AssocChange !in t.assocs[a].subscribed
    ensures a !in t.assocs ==> a !in t.lib.assocs && a in t.lib.used
  {
    assert ListOk(s, i, a) && AssocOk(s, a);
    assert EvolvedAssoc(s, t, a) && EvolvedSocket(s, t, i) && EvolvedListing(s, t, i, a) && EvolvedId(s, t, a);
    assert AssocOk(t, a) && IdOk(t, a);
  }

  /** Its end deletes it at once. */
  lemma AbandonedEnds(s: State, t: State, i: Instance, a: AssocId)
    requires Inv(s) && EndHandled(s, t, a, true) && i in s.sockets && !s.sockets[i].inAutoClose && s.dying == {}
    requires a in s.assocs && s.assocs[a].socket == i && a in s.sockets[i].connectionless && a !in s.closingAssocs
    requires s.assocs[a].useCount == 0 && AssocChange !in s.assocs[a].subscribed
    ensures a !in t.assocs && a !in t.lib.assocs && a in t.lib.used
  {
    var e := MarkEnd(s, a, true);
    MarkEndHolds(s, a, true);
    MarkEndKeeps(s, a, true);
    assert AssocOk(s, a) && AssocOk(e, a);
    assert EvolvedAssoc(e, t, a) && EvolvedSocket(e, t, i) && EvolvedListing(e, t, i, a) && EvolvedId(e, t, a);
    SettledTold(t, i);
    assert Told(t, i, a) && IdOk(t, a);
  }
}
