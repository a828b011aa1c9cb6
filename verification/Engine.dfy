/**
  * The association and notification engine: the callbacks sctplib makes (SCTPSocketMaster), the
  * garbage collectors, and the application's calls on sockets and associations.  Each method is one
  * locked region.  Callbacks that sctplib makes from inside sctp_abort and sctp_shutdown are
  * ordinary nested calls.
  */
module Engine {
  import opened Basics
  import opened Notifications
  import opened EngineState
  import opened EngineEvolution
  import opened EngineCalls
  import opened AutoCloseTiming
  import opened EngineRouting
  import opened EngineOffLists
  import Delivery

  class SocketMaster {
    var assocs: map<AssocId, Association>
    var sockets: map<Instance, Socket>
    var closingAssocs: map<AssocId, Instance>
    var closingSockets: set<Instance>
    var lib: Library
    var clock: nat
    var inflight: multiset<AssocId>
    ghost var leaked: multiset<AssocId>
    ghost var dying: set<AssocId>

    ghost function View(): State
      reads this
    {
      State(assocs, sockets, closingAssocs, closingSockets, lib, inflight, leaked, dying, clock)
    }

    // -------------------------------------------------------------- SCTPSocketMaster

    /** addNotification: nothing happens if the association is already gone. */
    method AddNotification(i: Instance, n: Notification)
      requires i in sockets
      modifies this
      ensures View() == if n.assoc in old(assocs) && old(assocs)[n.assoc].socket == i
                        then Deliver(old(View()), n) else old(View())
      ensures n.assoc in old(assocs) && old(assocs)[n.assoc].socket == i ==> Routed(old(View()), View(), n)
    {
      var a := n.assoc;
      if a !in assocs || assocs[a].socket != i {
        return;
      }
      DeliverRoutes(View(), n);
      var x := Note(assocs[a], sockets[i], n);
      var k := QueueGlobally(assocs[a], sockets[i], n);
      assocs := assocs[a := x];
      sockets := sockets[i := k];
    }

    /** What addNotification does to the association. */
    method Note(association: Association, socket: Socket, n: Notification) returns (x: Association)
      ensures x == Noted(association, socket, n)
    {
      x := association;
      if Wanted(n.kind, x.subscribed) {
        x := x.(useCount := x.useCount + 1);
        if !(socket.globalQueue && !x.peeledOff) {
          x := x.(inQueue := x.inQueue + [n]);
          x := x.(readReady := HasData(x.inQueue, x.subscribed));
        }
      }
    }

    /** What addNotification does to the socket. */
    method QueueGlobally(x: Association, socket: Socket, n: Notification) returns (k: Socket)
      ensures k == Queued(x, socket, n)
    {
      k := socket;
      if Wanted(n.kind, x.subscribed) && k.globalQueue && !x.peeledOff {
        k := k.(queue := k.queue + [n]);
        k := k.(readReady := SocketHasData(k) || k.requests != []);
      }
    }

    /** communicationLostNotif; sctplib reports the end of an association at most once. */
    method CommunicationLost(a: AssocId)
      requires Inv(View()) && a in lib.assocs && a !in lib.ended
      modifies this
      ensures EndHandled(old(View()), View(), a, true)
      decreases Idle(View()), 3
    {
      ghost var s := View();
      assert IdOk(s, a) && AssocOk(s, a);
      var collected := AssociationGarbageCollection(a);
      if collected {
        return;
      }
      var i := lib.assocs[a];
      if i in sockets {
        if a in assocs && assocs[a].socket == i {
          NoteLost(i, a);
        }
        MarkEndKeeps(s, a, true);
        CheckAutoClose(i);
      }
    }

    method NoteLost(i: Instance, a: AssocId)
      requires a in assocs && assocs[a].socket == i && i in sockets
      modifies this
      ensures View() == MarkEnd(old(View()), a, true)
    {
      LateReady(View(), a);
      assocs := assocs[a := assocs[a].(lost := true, complete := true)];
      lib := lib.(ended := lib.ended + {a});
      AddNotification(i, EndEvent(a, true));
      assocs := assocs[a := assocs[a].(readReady := true)];
    }

    /** associationGarbageCollection (never called with sendAbort). */
    method AssociationGarbageCollection(a: AssocId) returns (collected: bool)
      requires Inv(View())
      modifies this
      ensures collected <==> a in old(closingAssocs)
      ensures !collected ==> View() == old(View())
      ensures collected ==> Inv(View()) && Evolves(Collect(old(View()), a), View())
      decreases Idle(View()), 2
    {
      if a in closingAssocs {
        ghost var s := View();
        CollectKeeps(s, a);
        assert IdOk(s, a);
        lib := lib.(ended := lib.ended + {a});
        DeleteFromLibrary(a);
        closingAssocs := closingAssocs - {a};
        assert View() == Collect(s, a);
        SocketGarbageCollection();
        return true;
      }
      return false;
    }

    /** sctp_deleteAssociation: it fails, and the caller aborts the program, unless sctplib still
        holds the association. */
    method DeleteFromLibrary(a: AssocId)
      requires a in lib.assocs
      modifies this
      ensures View() == Release(old(View()), a)
    {
      lib := lib.(assocs := lib.assocs - {a}, released := lib.released + multiset{a});
    }

    /**
      * socketGarbageCollection: run every socket's auto-close check, then unregister the closing
      * instances that no closing association refers to.
      */
    method SocketGarbageCollection()
      requires Inv(View())
      modifies this
      ensures Inv(View()) && Evolves(old(View()), View())
      ensures forall i :: i in old(sockets) && !old(sockets)[i].inAutoClose ==> Settled(View(), i)
      ensures forall i :: i in closingSockets <==>
                i in old(closingSockets) && exists a :: a in closingAssocs && closingAssocs[a] == i
      ensures forall a {:trigger Spared(old(View()), View(), a)} :: Spared(old(View()), View(), a)
      decreases Idle(View()), 1
    {
      ghost var s := View();
      CheckAllSockets();
      ghost var t := View();
      UnregisterUnused();
      EvolvesTrans(s, t, View());
      EvolvesSpares(s, View());
      AllStaySettled(s, t, View(), {});
    }

    method UnregisterUnused()
      requires Inv(View())
      modifies this
      ensures Inv(View()) && Evolves(old(View()), View())
      ensures sockets == old(sockets) && assocs == old(assocs) && closingAssocs == old(closingAssocs)
      ensures closingSockets == set i | i in old(closingSockets) && InstanceUsed(old(View()), i)
    {
      ghost var s := View();
      EvolvesRefl(s);
      var todo := closingSockets;
      while todo != {}
        invariant Inv(View()) && Evolves(s, View())
        invariant sockets == s.sockets && assocs == s.assocs && closingAssocs == s.closingAssocs
        invariant todo <= closingSockets <= s.closingSockets
        invariant forall i :: i in s.closingSockets && i !in todo ==> (i in closingSockets <==> InstanceUsed(s, i))
        decreases todo
      {
        ghost var t := View();
        var i :| i in todo;
        var used := false;
        var rest := closingAssocs.Keys;
        while rest != {} && !used
          invariant rest <= closingAssocs.Keys
          invariant used ==> InstanceUsed(s, i)
          invariant !used ==> forall a :: a in closingAssocs && closingAssocs[a] == i ==> a in rest
          decreases rest, !used
        {
          var a :| a in rest;
          if closingAssocs[a] == i {
            used := true;
          }
          rest := rest - {a};
        }
        if !used {
          assert !InstanceUsed(t, i);
          UnregisterKeeps(t, i);
          closingSockets := closingSockets - {i};
          UnregisterFromLibrary(i);
          assert View() == Unregister(t, i);
          EvolvesTrans(s, t, View());
        }
        todo := todo - {i};
      }
    }

    /** sctp_unregisterInstance: it fails, and the caller aborts the program, unless the instance is
        registered and free of associations. */
    method UnregisterFromLibrary(i: Instance)
      requires i in lib.instances && forall a :: a in lib.assocs ==> lib.assocs[a] != i
      modifies this`lib
      ensures lib == old(lib).(instances := old(lib).instances - {i}, unregistered := old(lib).unregistered + multiset{i})
    {
      lib := lib.(instances := lib.instances - {i}, unregistered := lib.unregistered + multiset{i});
    }

    method CheckAllSockets()
      requires Inv(View())
      modifies this
      ensures Inv(View()) && Evolves(old(View()), View())
      ensures forall i :: i in old(sockets) && !old(sockets)[i].inAutoClose ==> Settled(View(), i)
      ensures closingAssocs == old(closingAssocs) && closingSockets == old(closingSockets)
      decreases Idle(View()), 0, 2
    {
      ghost var s := View();
      var todo := sockets.Keys;
      EvolvesRefl(s);
      while todo != {}
        invariant Inv(View()) && Evolves(s, View())
        invariant todo <= s.sockets.Keys
        invariant forall i :: i in s.sockets && i !in todo && !s.sockets[i].inAutoClose ==> Settled(View(), i)
        invariant closingAssocs == old(closingAssocs) && closingSockets == old(closingSockets)
        decreases todo
      {
        ghost var t := View();
        var i :| i in todo;
        assert EvolvedSocket(s, t, i);
        MeasuresShrink(s, t);
        CheckAutoClose(i);
        EvolvesTrans(s, t, View());
        AllStaySettled(s, t, View(), todo);
        todo := todo - {i};
      }
    }

    /** checkAutoClose, with its guard against running twice on a socket at the same time. */
    method CheckAutoClose(i: Instance)
      requires Inv(View()) && i in sockets
      modifies this
      ensures Inv(View()) && Evolves(old(View()), View())
      ensures old(sockets)[i].inAutoClose ==> View() == Recheck(old(View()), i)
      ensures !old(sockets)[i].inAutoClose ==> Settled(View(), i)
      ensures !old(sockets)[i].inAutoClose ==> forall a {:trigger Told(View(), i, a)} :: Told(View(), i, a)
      ensures forall a {:trigger Spared(old(View()), View(), a)} :: Spared(old(View()), View(), a)
      ensures closingAssocs == old(closingAssocs) && closingSockets == old(closingSockets)
      decreases Idle(View()), 0, 1
    {
      ghost var s := View();
      CheckUnlessChecking(i);
      EvolvesSpares(s, View());
      if !s.sockets[i].inAutoClose {
        SettledTold(View(), i);
      }
    }

    method CheckUnlessChecking(i: Instance)
      requires Inv(View()) && i in sockets
      modifies this
      ensures Inv(View()) && Evolves(old(View()), View())
      ensures old(sockets)[i].inAutoClose ==> View() == Recheck(old(View()), i)
      ensures !old(sockets)[i].inAutoClose ==> Settled(View(), i)
      ensures closingAssocs == old(closingAssocs) && closingSockets == old(closingSockets)
      decreases Idle(View()), 0, 0
    {
      ghost var s := View();
      if sockets[i].inAutoClose {
        RecheckEvolves(s, i, true);
        sockets := sockets[i := sockets[i].(recheck := true)];
        return;
      }
      sockets := sockets[i := sockets[i].(inAutoClose := true)];
      ghost var s1 := View();
      NeutralSocket(s, i, sockets[i]);
      EvolvesRefl(s1);
      assert Idle(s1) < Idle(s) by { assert i in Idle(s) && i !in Idle(s1); }
      var again := true;
      while again
        invariant Rounds(s1, View(), i, again)
        decreases Open(View(), i), again
      {
        again := Round(s1, i);
      }
      GuardEvolves(s, View(), i);
      sockets := sockets[i := sockets[i].(inAutoClose := false)];
    }

    /** One round of the check: a pass, and whether another one was asked for meanwhile. */
    method Round(ghost s1: State, i: Instance) returns (again: bool)
      requires Inv(s1) && Rounds(s1, View(), i, true)
      modifies this
      ensures Rounds(s1, View(), i, again) && Open(View(), i) <= Open(old(View()), i)
      ensures again ==> Open(View(), i) < Open(old(View()), i)
      decreases Idle(s1), 9
    {
      RoundBegins(s1, View(), i);
      sockets := sockets[i := sockets[i].(recheck := false)];
      ghost var t := View();
      Sweep(i);
      RoundEnds(s1, t, View(), i);
      again := sockets[i].recheck;
    }

    /** One pass over the list.  Nothing called meanwhile can touch the list, so the iteration stays
        valid: a nested check on this socket only asks for another pass. */
    method Sweep(i: Instance)
      requires Inv(View()) && i in sockets && sockets[i].inAutoClose && !sockets[i].recheck
      modifies this
      ensures Swept(old(View()), View(), i, {})
      decreases Idle(View()), 8
    {
      ghost var s := View();
      SweepBegins(s, i);
      var todo := sockets[i].connectionless;
      while todo != {}
        invariant Swept(s, View(), i, todo)
        decreases todo
      {
        ghost var t := View();
        MeasuresShrink(s, t);
        var a :| a in todo;
        CheckAssociation(i, a);
        SweepStep(s, t, View(), i, todo, a);
        todo := todo - {a};
      }
    }

    /** What a pass does with one listed association. */
    method CheckAssociation(i: Instance, a: AssocId)
      requires Inv(View()) && i in sockets && sockets[i].inAutoClose && a in sockets[i].connectionless
      modifies this
      ensures CheckedUp(old(View()), View(), i, a) && CheckedByClock(old(View()), View(), i, a)
      decreases Idle(View()), 7, 1
    {
      ghost var s := View();
      assert ListOk(View(), i, a) && AssocOk(View(), a);
      var x, timeout := assocs[a], sockets[i].autoCloseTimeout;
      if x.useCount == 0 && (x.complete || x.lost) {
        DeleteFinished(i, a);
      } else if x.useCount == 0 && timeout > 0 && clock - x.lastUsage > 4 * timeout {
        AbortOverdue(i, a);
      } else if x.useCount == 0 && timeout > 0 && clock - x.lastUsage > timeout && !x.shuttingDown {
        ShutDownExpired(i, a);
      } else {
        UntouchedCheckedUp(View(), i, a);
      }
      CheckedGoesByClock(s, View(), i, a);
    }

    method DeleteFinished(i: Instance, a: AssocId)
      requires Inv(View()) && i in sockets && a in sockets[i].connectionless && Finished(View(), a)
      modifies this
      ensures CheckedUp(old(View()), View(), i, a)
      decreases Idle(View()), 7, 0
    {
      ghost var s := View();
      FinishedCheckedUp(s, i, a);
      assert ListOk(s, i, a) && AssocOk(s, a);
      DetachKeeps(s, i, a);
      sockets := sockets[i := sockets[i].(connectionless := sockets[i].connectionless - {a})];
      assert View() == Detach(s, i, a);
      DeleteEnded(a);
    }

    method AbortOverdue(i: Instance, a: AssocId)
      requires Inv(View()) && i in sockets && sockets[i].inAutoClose && a in sockets[i].connectionless && Overdue(View(), a)
      modifies this
      ensures CheckedUp(old(View()), View(), i, a)
      decreases Idle(View()), 7, 0
    {
      ghost var s := View();
      assert ListOk(s, i, a) && AssocOk(s, a);
      StartedCheckedUp(s, i, a, true);
      Abort(a);
      if View() != StartAbort(s, a) {
        EndedCheckedUp(s, View(), i, a, true, true);
      }
    }

    method ShutDownExpired(i: Instance, a: AssocId)
      requires Inv(View()) && i in sockets && sockets[i].inAutoClose && a in sockets[i].connectionless
      requires Expired(View(), a) && !Overdue(View(), a)
      modifies this
      ensures CheckedUp(old(View()), View(), i, a)
      decreases Idle(View()), 7, 0
    {
      ghost var s := View();
      assert ListOk(s, i, a) && AssocOk(s, a);
      StartedCheckedUp(s, i, a, false);
      Shutdown(a);
      if View() != StartShutdown(s, a) {
        ghost var lost := EndHandled(StartShutdown(s, a), View(), a, true);
        EndedCheckedUp(s, View(), i, a, false, lost);
      }
    }

    // -------------------------------------------------------------- SCTPAssociation

    /** SCTPAssociation::abort.  sctp_abort may report the loss before it returns; that is the only
        callback that is let in before the call returns. */
    method Abort(a: AssocId)
      requires Inv(View()) && a in assocs && a !in dying
      modifies this
      ensures var s1 := StartAbort(old(View()), a);
              View() == s1 || (a !in old(lib).ended && EndHandled(s1, View(), a, true))
      ensures Inv(View())
      decreases Idle(View()), 5, 0
    {
      assert AssocOk(View(), a);
      StartShutdownKeeps(View(), a);
      assocs := assocs[a := assocs[a].(shuttingDown := true)];
      lib := lib.(aborted := lib.aborted + {a});
      var reported: bool := *;
      if reported && a in lib.assocs && a !in lib.ended {
        CommunicationLost(a);
      }
    }

    /** SCTPAssociation::shutdown.  sctp_shutdown may report the end of the same association before it
        returns; that is the only callback that is let in before the call returns. */
    method Shutdown(a: AssocId)
      requires Inv(View()) && a in assocs
      modifies this
      ensures Inv(View())
      ensures old(assocs)[a].shuttingDown ==> View() == old(View())
      ensures !old(assocs)[a].shuttingDown ==>
                var s1 := StartShutdown(old(View()), a);
                || View() == s1
                || (a !in old(lib).ended && (EndHandled(s1, View(), a, true) || EndHandled(s1, View(), a, false)))
      decreases Idle(View()), 5, 0
    {
      if !assocs[a].shuttingDown {
        StartShutdownKeeps(View(), a);
        assocs := assocs[a := assocs[a].(shuttingDown := true)];
        var reported, lost: bool := *, *;
        if reported && a in lib.assocs && a !in lib.ended {
          if lost {
            CommunicationLost(a);
          } else {
            ShutdownComplete(a);
          }
        }
      }
    }

    method NoteComplete(i: Instance, a: AssocId)
      requires a in assocs && assocs[a].socket == i && i in sockets
      modifies this
      ensures View() == MarkEnd(old(View()), a, false)
    {
      ghost var s := View();
      assocs := assocs[a := assocs[a].(readReady := true, complete := true)];
      lib := lib.(ended := lib.ended + {a});
      assert View() == Finish(s, a, false);
      AddNotification(i, EndEvent(a, false));
    }

    /** shutdownCompleteNotif. */
    method ShutdownComplete(a: AssocId)
      requires Inv(View()) && a in lib.assocs && a !in lib.ended
      modifies this
      ensures EndHandled(old(View()), View(), a, false)
      decreases Idle(View()), 3
    {
      ghost var s := View();
      assert IdOk(s, a) && AssocOk(s, a);
      var collected := AssociationGarbageCollection(a);
      if collected {
        return;
      }
      var i := lib.assocs[a];
      if i in sockets {
        if a in assocs && assocs[a].socket == i {
          NoteComplete(i, a);
        }
        MarkEndKeeps(s, a, false);
        CheckAutoClose(i);
      }
    }

    /**
      * The destructor.  An association that has ended is released at once; any other is handed to
      * the deferred collector and shut down, and sctplib may report its end before it is taken off
      * the list.  `u` is the state just before that last step.
      */
    method Delete(a: AssocId) returns (ghost u: State)
      requires Inv(View()) && a in assocs && a !in dying
      requires assocs[a].socket in sockets && Unlisted(View(), a)
      modifies this
      ensures Inv(View()) && a !in assocs && dying == old(dying) && inflight == old(inflight)
      ensures a in lib.aborted <==> a in old(lib).aborted
      ensures old(assocs)[a].complete ==> View() == Destroy(old(View()), a)
      ensures !old(assocs)[a].complete ==>
                && View() == EndDying(u, a)
                && (Evolves(Doomed(old(View()), a), u) || Evolves(Collect(Doomed(old(View()), a), a), u))
      decreases Idle(View()), 6, 1
    {
      u := View();
      if assocs[a].complete {
        DeleteEnded(a);
      } else {
        u := DeleteOpen(a);
      }
    }

    /** The destructor of an association that has ended. */
    method DeleteEnded(a: AssocId)
      requires Inv(View()) && a in assocs && a !in dying && assocs[a].complete
      requires assocs[a].socket in sockets && Unlisted(View(), a)
      modifies this
      ensures Inv(View()) && View() == Destroy(old(View()), a)
    {
      assert AssocOk(View(), a) && IdOk(View(), a);
      DestroyKeeps(View(), a);
      DeleteFromLibrary(a);
      assocs := assocs - {a};
    }

    /** The destructor of any other. */
    method DeleteOpen(a: AssocId) returns (ghost u: State)
      requires Inv(View()) && a in assocs && a !in dying && !assocs[a].complete
      requires assocs[a].socket in sockets && Unlisted(View(), a)
      modifies this
      ensures Inv(View()) && a !in assocs && dying == old(dying) && inflight == old(inflight)
      ensures a in lib.aborted <==> a in old(lib).aborted
      ensures View() == EndDying(u, a)
      ensures Evolves(Doomed(old(View()), a), u) || Evolves(Collect(Doomed(old(View()), a), a), u)
      decreases Idle(View()), 6, 0
    {
      ghost var s := View();
      ShutDownDying(a);
      u := View();
      DoomedStays(s, a, u);
      EndDyingKeeps(u, a);
      dying := dying - {a};
      assocs := assocs - {a};
    }

    /** Hands an association to the deferred collector and shuts it down. */
    method ShutDownDying(a: AssocId)
      requires Inv(View()) && a in assocs && a !in dying && !assocs[a].complete
      requires assocs[a].socket in sockets && Unlisted(View(), a)
      modifies this
      ensures Inv(View())
      ensures Evolves(Doomed(old(View()), a), View()) || Evolves(Collect(Doomed(old(View()), a), a), View())
      decreases Idle(View()), 5, 1
    {
      ghost var s := View();
      assert AssocOk(s, a) && IdOk(s, a);
      BeginDyingKeeps(s, a);
      closingAssocs := closingAssocs[a := assocs[a].socket];
      dying := dying + {a};
      ghost var b := BeginDying(s, a);
      assert View() == b;
      DoomedAlready(s, a);
      EvolvesRefl(Doomed(s, a));
      Shutdown(a);
    }

    // -------------------------------------------------------------- other callbacks

    /** dataArriveNotif and the callbacks that only report an event. */
    method Notify(n: Notification)
      requires Inv(View()) && n.assoc in lib.assocs && AssocOk(View(), n.assoc)
      modifies this
      ensures Inv(View())
      ensures View() == if n.assoc in old(assocs) then Deliver(old(View()), n) else old(View())
      ensures n.assoc in old(assocs) ==> Routed(old(View()), View(), n)
    {
      assert IdOk(View(), n.assoc) && InstanceOk(View(), lib.assocs[n.assoc]);
      var i := lib.assocs[n.assoc];
      if i in sockets {
        if n.assoc in assocs {
          DeliverKeeps(View(), n);
        }
        AddNotification(i, n);
      }
    }

    /** communicationUpNotif: for an association of ours, or for a new one of the instance `i`. */
    method CommunicationUp(a: AssocId, i: Instance, outStreams: nat, inStreams: nat)
      requires Inv(View()) && AssocOk(View(), a)
      requires a in assocs ==> a !in dying && !assocs[a].shuttingDown && assocs[a].socket == i
      requires a !in assocs ==> a != 0 && a !in lib.used && i in lib.instances
      modifies this
      ensures Inv(View())
      ensures a in old(assocs) ==> View() == Established(old(View()), a, outStreams, inStreams)
      ensures a !in old(assocs) ==>
                if i in old(sockets) && old(sockets)[i].listening
                then View() == Incoming(old(View()), i, a, outStreams, inStreams)
                else Evolves(Rejected(old(View()), a), View())
                     && (View() != Rejected(old(View()), a) && i in old(sockets) && !old(sockets)[i].inAutoClose ==>
                           Settled(View(), i))
      ensures a !in old(assocs) && !(i in old(sockets) && old(sockets)[i].listening) ==>
                a !in assocs && a in lib.aborted && a !in lib.assocs && lib.released[a] == 1
    {
      var known := false;
      if i in sockets {
        if a in assocs && !assocs[a].shuttingDown {
          EstablishedKeeps(View(), a, outStreams, inStreams);
          assocs := assocs[a := assocs[a].(up := true)];
          known := true;
        } else if sockets[i].listening {
          IncomingKeeps(View(), i, a, outStreams, inStreams);
          QueueRequest(i, a);
          known := true;
        }
      }
      if known {
        AddNotification(i, AssocChangeEvent(a, SCTP_COMM_UP, outStreams, inStreams));
      } else {
        Reject(a, i);
      }
    }

    method QueueRequest(i: Instance, a: AssocId)
      requires i in sockets
      modifies this
      ensures View() == Request(Create(old(View()), i, a, true), i, a)
    {
      CreateAssociation(i, a, true);
      sockets := sockets[i := sockets[i].(requests := sockets[i].requests + [a], readReady := true)];
    }

    /** An unwanted association is aborted and released.  If sctp_abort reports the loss, there is no
        association object, but the socket is checked. */
    method Reject(a: AssocId, i: Instance)
      requires Inv(View()) && a !in lib.used
      modifies this
      ensures Inv(View()) && Evolves(Rejected(old(View()), a), View())
      ensures View() != Rejected(old(View()), a) && i in old(sockets) && !old(sockets)[i].inAutoClose ==> Settled(View(), i)
      ensures a !in assocs && a in lib.aborted && a !in lib.assocs && lib.released[a] == 1
    {
      ghost var s := View();
      RejectedKeeps(s, a);
      lib := lib.(used := lib.used + {a}, ended := lib.ended + {a}, aborted := lib.aborted + {a}, released := lib.released + multiset{a});
      EvolvesRefl(View());
      var reported: bool := *;
      if reported && i in sockets {
        CheckAutoClose(i);
      }
      RejectedIsReleased(s, View(), a);
    }

    /** The constructor of SCTPAssociation. */
    method CreateAssociation(i: Instance, a: AssocId, up: bool)
      requires i in sockets
      modifies this
      ensures View() == Create(old(View()), i, a, up)
    {
      assocs := assocs[a := Association(i, up, false, false, false, false, 0, clock, sockets[i].subscribed, [], false)];
      lib := lib.(assocs := lib.assocs[a := i], used := lib.used + {a});
    }

    // -------------------------------------------------------------- SCTPSocket

    /** associate, up to the wait for establishment; sctplib hands out a fresh ID. */
    method AssociateBegin(i: Instance, a: AssocId)
      requires Inv(View()) && i in sockets && a != 0 && a !in lib.used
      modifies this
      ensures Inv(View()) && View() == Hold(Create(old(View()), i, a, false), a)
      ensures a in assocs && lib.assocs == old(lib).assocs[a := i] && lib.aborted == old(lib).aborted
      ensures var x := assocs[a];
              && x.socket == i && x.subscribed == old(sockets)[i].subscribed && x.useCount == 1 && x.lastUsage == clock
              && x.inQueue == [] && !x.up && !x.lost && !x.complete && !x.shuttingDown && !x.peeledOff && !x.readReady
    {
      CreateKeeps(View(), i, a, false);
      CreateAssociation(i, a, false);
      TakeUse(a);
    }

    /** The rest of associate: a blocking call gives up an association that was not established. */
    method AssociateEnd(a: AssocId, blocking: bool) returns (established: bool)
      requires Inv(View()) && AssocOk(View(), a) && a in assocs && a !in dying && a in inflight
      requires Unlisted(View(), a)
      modifies this
      ensures Inv(View())
      ensures established <==> !blocking || old(assocs)[a].up
      ensures established ==> View() == LetGo(old(View()), a, old(assocs)[a].lastUsage)
      ensures established ==> a in assocs && assocs[a].lastUsage == old(assocs)[a].lastUsage
                              && assocs[a].useCount == old(assocs)[a].useCount - 1
      ensures !established ==> a !in assocs && inflight == old(inflight) - multiset{a} && dying == old(dying)
      ensures OffLists(old(View())) - (if established then {} else {a}) <= OffLists(View())
    {
      ghost var s := View();
      if blocking && !assocs[a].up {
        DeleteHeld(a);
        return false;
      }
      LetGoKeeps(s, a, s.assocs[a].lastUsage);
      LetGoStaysOff(s, a, s.assocs[a].lastUsage);
      GiveBack(a, assocs[a].lastUsage);
      return true;
    }

    /** A call deletes the association it holds. */
    method DeleteHeld(a: AssocId)
      requires Inv(View()) && a in assocs && a !in dying && assocs[a].socket in sockets && Unlisted(View(), a)
      modifies this
      ensures Inv(View()) && a !in assocs && inflight == old(inflight) - multiset{a} && dying == old(dying)
      ensures a in lib.aborted <==> a in old(lib).aborted
      ensures OffLists(old(View())) - {a} <= OffLists(View())
    {
      ghost var s := View();
      ghost var u := Delete(a);
      DeleteStaysOff(s, u, View(), a);
      DropInflight(a);
    }

    /** A call ends whose association is gone. */
    method DropInflight(a: AssocId)
      requires Inv(View()) && a !in assocs
      modifies this`inflight
      ensures Inv(View()) && inflight == old(inflight) - multiset{a}
    {
      ghost var s := View();
      inflight := inflight - multiset{a};
      forall b ensures AssocOk(View(), b) { assert AssocOk(s, b); }
      forall b ensures IdOk(View(), b) { assert IdOk(s, b); }
      forall j ensures InstanceOk(View(), j) { assert InstanceOk(s, j); }
      forall j, b ensures ListOk(View(), j, b) { assert ListOk(s, j, b); }
    }

    /**
      * sendTo on an existing association, up to the transmission.  Connecting again is refused; an
      * abort takes a use that it never gives back; otherwise the call holds the association.
      */
    method SendBegin(a: AssocId, empty: bool, eof: bool, abort: bool) returns (proceeds: bool)
      requires Inv(View()) && a in assocs && a !in dying
      modifies this
      ensures Inv(View())
      ensures proceeds <==> !abort && (!empty || eof)
      ensures empty && !eof && !abort ==> View() == old(View())
      ensures proceeds ==> View() == Hold(old(View()), a)
      ensures abort ==> a in assocs && assocs[a].shuttingDown && a in lib.aborted
                        && leaked == old(leaked) + multiset{a} && inflight == old(inflight) && dying == old(dying)
      ensures OffLists(old(View())) <= OffLists(View())
    {
      if empty && !abort && !eof {
        return false;
      }
      if abort {
        LeakUse(a);
        AbortHeld(a);
        return false;
      }
      TakeUse(a);
      return true;
    }

    /** A call takes a use of an association. */
    method TakeUse(a: AssocId)
      requires Inv(View()) && a in assocs
      modifies this`assocs, this`inflight
      ensures Inv(View()) && View() == Hold(old(View()), a) && OffLists(old(View())) <= OffLists(View())
    {
      HoldKeeps(View(), a);
      StayOff(View(), Hold(View(), a));
      assocs := assocs[a := assocs[a].(useCount := assocs[a].useCount + 1)];
      inflight := inflight + multiset{a};
    }

    /** The same, never to be given back. */
    method LeakUse(a: AssocId)
      requires Inv(View()) && a in assocs
      modifies this`assocs, this`leaked
      ensures Inv(View()) && View() == Leak(old(View()), a) && OffLists(old(View())) <= OffLists(View())
    {
      StayOff(View(), Leak(View(), a));
      LeakKeeps(View(), a);
      assocs := assocs[a := assocs[a].(useCount := assocs[a].useCount + 1)];
      leaked := leaked + multiset{a};
    }

    /** A call gives a use back. */
    method GiveBack(a: AssocId, lastUsage: nat)
      requires Inv(View()) && a in assocs && a in inflight && lastUsage <= clock
      modifies this`assocs, this`inflight
      ensures old(assocs)[a].useCount > 0 && Inv(View()) && View() == LetGo(old(View()), a, lastUsage)
    {
      LetGoKeeps(View(), a, lastUsage);
      assocs := assocs[a := assocs[a].(lastUsage := lastUsage, useCount := assocs[a].useCount - 1)];
      inflight := inflight - multiset{a};
    }

    /** Aborting an association that is in use, or on no list, leaves the object. */
    method AbortHeld(a: AssocId)
      requires Inv(View()) && AssocOk(View(), a) && a in assocs && a !in dying
      requires a in inflight || a in leaked || a !in sockets[assocs[a].socket].connectionless
      modifies this
      ensures Inv(View()) && HeldThrough(old(View()), View(), a) && a in lib.aborted
      ensures OffLists(old(View())) <= OffLists(View())
    {
      ghost var s := View();
      HeldStarted(s, a, true);
      Abort(a);
      if View() != StartAbort(s, a) {
        HeldEnded(s, View(), a, true, true);
      }
      CloseStaysOff(s, View(), a, true);
    }

    /** Shutting down an association that is in use, or on no list, leaves the object. */
    method ShutdownHeld(a: AssocId)
      requires Inv(View()) && AssocOk(View(), a) && a in assocs && a !in dying
      requires a in inflight || a in leaked || a !in sockets[assocs[a].socket].connectionless
      modifies this
      ensures Inv(View()) && HeldThrough(old(View()), View(), a) && (a in lib.aborted <==> a in old(lib).aborted)
      ensures OffLists(old(View())) <= OffLists(View())
      ensures old(assocs)[a].shuttingDown ==> View() == old(View())
    {
      ghost var s := View();
      if assocs[a].shuttingDown {
        HeldAlready(s, a);
      }
      Shutdown(a);
      if !s.assocs[a].shuttingDown {
        ShutDownHolds(s, View(), a);
      }
      CloseStaysOff(s, View(), a, false);
    }

    /** sendTo on an association it has just made: hold it and list it. */
    method SendNew(i: Instance, a: AssocId)
      requires Inv(View()) && i in sockets && a in assocs && assocs[a].socket == i
      requires a !in dying && !assocs[a].peeledOff && Unlisted(View(), a)
      modifies this
      ensures Inv(View()) && View() == Attach(Hold(old(View()), a), i, a)
      ensures a in assocs && assocs[a].useCount == old(assocs)[a].useCount + 1
      ensures i in sockets && sockets[i].connectionless == old(sockets)[i].connectionless + {a}
      ensures OffLists(old(View())) - {a} <= OffLists(View())
    {
      HoldKeeps(View(), a);
      AttachKeeps(Hold(View(), a), i, a);
      assocs := assocs[a := assocs[a].(useCount := assocs[a].useCount + 1)];
      inflight := inflight + multiset{a};
      sockets := sockets[i := sockets[i].(connectionless := sockets[i].connectionless + {a})];
    }

    /**
      * The end of sendTo: MSG_ABORT and MSG_EOF close the association, and on an auto-connect socket
      * also remove it, whoever else may use it; otherwise the call gives its use back.
      */
    method SendEnd(a: AssocId, eof: bool, abort: bool)
      requires Inv(View()) && AssocOk(View(), a) && a in assocs && a !in dying && a in inflight
      requires (eof || abort) && sockets[assocs[a].socket].autoConnect ==> a !in sockets[assocs[a].socket].requests
      modifies this
      ensures Inv(View()) && inflight == old(inflight) - multiset{a} && dying == old(dying)
      ensures !eof && !abort ==> View() == LetGo(old(View()), a, clock)
      ensures OffLists(old(View())) - Removed(old(View()), a, eof || abort) <= OffLists(View())
      ensures eof || abort ==>
                && (a in lib.aborted <==> abort || a in old(lib).aborted)
                && if old(sockets)[old(assocs)[a].socket].autoConnect then a !in assocs
                   else a in assocs && assocs[a].shuttingDown
    {
      var i := assocs[a].socket;
      if eof || abort {
        var autoConnect := sockets[i].autoConnect;
        CloseHeld(a, eof, abort);
        if autoConnect {
          RemoveHeld(i, a);
          return;
        }
      }
      LetGoKeeps(View(), a, clock);
      LetGoStaysOff(View(), a, clock);
      GiveBack(a, clock);
    }

    method CloseHeld(a: AssocId, eof: bool, abort: bool)
      requires Inv(View()) && AssocOk(View(), a) && a in assocs && a !in dying && a in inflight && (eof || abort)
      modifies this
      ensures Inv(View()) && a in assocs && assocs[a].shuttingDown
      ensures a in lib.aborted <==> abort || a in old(lib).aborted
      ensures assocs[a].socket == old(assocs)[a].socket
      ensures inflight == old(inflight) && dying == old(dying) && clock == old(clock)
      ensures SameStrays(old(View()), View(), assocs[a].socket) && OffLists(old(View())) <= OffLists(View())
    {
      if abort {
        AbortHeld(a);
      }
      if eof {
        assert AssocOk(View(), a);
        ShutdownHeld(a);
      }
    }

    /** Takes an association off the list, deletes it, and ends the call that held it. */
    method RemoveHeld(i: Instance, a: AssocId)
      requires Inv(View()) && i in sockets && a in assocs && a !in dying && assocs[a].socket == i
      requires a !in sockets[i].requests
      modifies this
      ensures Inv(View()) && a !in assocs && inflight == old(inflight) - multiset{a} && dying == old(dying)
      ensures a in lib.aborted <==> a in old(lib).aborted
      ensures OffLists(old(View())) - {a} <= OffLists(View())
    {
      DetachKeeps(View(), i, a);
      SocketStaysOff(View(), i, sockets[i].(connectionless := sockets[i].connectionless - {a}));
      sockets := sockets[i := sockets[i].(connectionless := sockets[i].connectionless - {a})];
      DeleteHeld(a);
    }

    /** accept, without waiting. */
    method Accept(i: Instance) returns (a: AssocId)
      requires Inv(View()) && i in sockets
      modifies this
      ensures Inv(View())
      ensures a == 0 <==> !old(sockets)[i].listening || old(sockets)[i].requests == []
      ensures a == 0 ==> View() == old(View())
      ensures a != 0 ==> a == old(sockets)[i].requests[0] && View() == Accepted(old(View()), i)
                         && Acceptable(View(), i, a) && Unlisted(View(), a)
      ensures a != 0 ==> i in sockets && old(sockets)[i].requests == [a] + sockets[i].requests && assocs == old(assocs)
    {
      if !sockets[i].listening || sockets[i].requests == [] {
        return 0;
      }
      AcceptedKeeps(View(), i);
      a := sockets[i].requests[0];
      assert AssocOk(View(), a);
      var k := sockets[i].(requests := sockets[i].requests[1..]);
      k := k.(readReady := SocketHasData(k) || k.requests != []);
      sockets := sockets[i := k];
    }

    /** checkAutoConnect: list every association that waits to be accepted. */
    method CheckAutoConnect(i: Instance)
      requires Inv(View()) && i in sockets
      modifies this
      ensures Inv(View()) && i in sockets && assocs == old(assocs) && dying == old(dying)
      ensures !old(sockets)[i].autoConnect ==> View() == old(View())
      ensures old(sockets)[i].autoConnect ==>
                var k := old(sockets)[i];
                sockets[i] == k.(requests := [], readReady := SocketHasData(k),
                                 connectionless := k.connectionless + Elements(k.requests))
      ensures sockets == old(sockets)[i := sockets[i]]
    {
      if sockets[i].autoConnect {
        var oldListening := sockets[i].listening;
        NeutralSocket(View(), i, sockets[i].(listening := true));
        sockets := sockets[i := sockets[i].(listening := true)];
        ListWaiting(i);
        NeutralSocket(View(), i, sockets[i].(listening := oldListening));
        assert InstanceOk(View(), i);
        sockets := sockets[i := sockets[i].(listening := oldListening)];
      }
    }

    method ListWaiting(i: Instance)
      requires Inv(View()) && i in sockets && sockets[i].listening
      modifies this
      ensures Inv(View()) && i in sockets && assocs == old(assocs) && dying == old(dying)
      ensures var k := old(sockets)[i];
              sockets[i] == k.(requests := [], readReady := sockets[i].readReady,
                               connectionless := k.connectionless + Elements(k.requests))
      ensures sockets == old(sockets)[i := sockets[i]]
    {
      ghost var k := sockets[i];
      var a := FirstWaiting(i);
      while a != 0
        invariant Inv(View()) && i in sockets && assocs == old(assocs) && dying == old(dying)
        invariant sockets[i].listening && Listing(k, sockets[i], a)
        invariant sockets == old(sockets)[i := sockets[i]]
        invariant a != 0 ==> Acceptable(View(), i, a)
        invariant a == 0 ==> sockets[i].requests == []
        decreases a != 0, |sockets[i].requests|
      {
        ghost var k1, a1 := sockets[i], a;
        a := ListOne(i, a);
        ListingStep(k, k1, a1, sockets[i], a);
      }
    }

    method FirstWaiting(i: Instance) returns (a: AssocId)
      requires Inv(View()) && i in sockets && sockets[i].listening
      modifies this
      ensures Inv(View()) && i in sockets && assocs == old(assocs) && dying == old(dying)
      ensures sockets[i].listening && Listing(old(sockets)[i], sockets[i], a)
      ensures if a != 0 then Acceptable(View(), i, a) else sockets[i].requests == []
      ensures sockets == old(sockets)[i := sockets[i]]
    {
      ghost var k := sockets[i];
      a := Accept(i);
      FirstListed(k, sockets[i], a);
    }

    /** Lists an accepted association and accepts the next one. */
    method ListOne(i: Instance, a: AssocId) returns (next: AssocId)
      requires Inv(View()) && i in sockets && sockets[i].listening && Acceptable(View(), i, a)
      modifies this
      ensures Inv(View()) && i in sockets && assocs == old(assocs) && dying == old(dying)
      ensures var k := old(sockets)[i];
              && sockets[i] == k.(requests := sockets[i].requests, readReady := sockets[i].readReady,
                                  connectionless := k.connectionless + {a})
              && if k.requests == [] then next == 0 && sockets[i].requests == []
                 else next != 0 && next == k.requests[0] && sockets[i].requests == k.requests[1..]
      ensures next != 0 ==> Acceptable(View(), i, next)
      ensures sockets == old(sockets)[i := sockets[i]]
    {
      AttachKeeps(View(), i, a);
      sockets := sockets[i := sockets[i].(connectionless := sockets[i].connectionless + {a})];
      next := Accept(i);
    }

    /** peelOff by association ID. */
    method PeelOffAssociation(i: Instance, a: AssocId) returns (ok: bool)
      requires Inv(View()) && i in sockets && ListOk(View(), i, a)
      modifies this
      ensures Inv(View())
      ensures ok <==> a in old(sockets)[i].connectionless && !old(assocs)[a].shuttingDown
      ensures View() == if ok then PeelOff(old(View()), i, a) else old(View())
      ensures ok ==> a in assocs && Unlisted(View(), a)
    {
      if a in sockets[i].connectionless && !assocs[a].shuttingDown {
        PeelOffKeeps(View(), i, a);
        assocs := assocs[a := assocs[a].(peeledOff := true)];
        sockets := sockets[i := sockets[i].(connectionless := sockets[i].connectionless - {a})];
        return true;
      }
      return false;
    }

    /** internalReceive on a socket's global queue. */
    method Receive(i: Instance, size: nat, flagsIn: Delivery.Flags, ok: bool)
      returns (result: int, chunk: seq<Byte>, flags: Delivery.Flags, blocked: bool)
      requires Inv(View()) && i in sockets
      modifies this
      ensures Inv(View())
      ensures size == 0 || old(sockets)[i].queue == [] ==> View() == old(View()) && chunk == []
      ensures size == 0 ==> result == -Delivery.EINVAL && !blocked
      ensures size > 0 && old(sockets)[i].queue == [] ==>
                if flagsIn.dontWait then result == -Delivery.EAGAIN && !blocked else blocked
      ensures size > 0 && old(sockets)[i].queue != [] ==>
                var n := old(sockets)[i].queue[0];
                var r := Delivery.ReceiveHead(n, size, flagsIn, old(sockets)[i].subscribed, ok,
                                              ErrorCode(old(View()), i, n.assoc));
                && !blocked && result == r.result && chunk == r.chunk && flags == r.flags
                && View() == ReceivedGlobal(old(View()), i, r)
                && i in sockets && sockets[i].queue == Delivery.QueueAfter(old(sockets)[i].queue, r)
      ensures |chunk| <= size && (result >= 0 ==> result == |chunk|)
    {
      flags, chunk, blocked, result := flagsIn, [], false, 0;
      if size == 0 {
        result := -Delivery.EINVAL;
        return;
      }
      var k := sockets[i];
      if k.queue == [] {
        if flags.dontWait {
          result := -Delivery.EAGAIN;
        } else {
          blocked := true;
        }
        return;
      }
      ghost var s := View();
      var code := GetErrorCode(i, k.queue[0].assoc);
      result, chunk, flags := ReadGlobal(i, size, flagsIn, ok, code);
      GlobalQueueAfter(s, i, Delivery.ReceiveHead(k.queue[0], size, flagsIn, k.subscribed, ok, code));
    }

    /** A receive that finds a record. */
    method ReadGlobal(i: Instance, size: nat, flagsIn: Delivery.Flags, ok: bool, code: int)
      returns (result: int, chunk: seq<Byte>, flags: Delivery.Flags)
      requires Inv(View()) && i in sockets && sockets[i].queue != [] && size > 0
      requires code == ErrorCode(View(), i, sockets[i].queue[0].assoc)
      modifies this
      ensures Inv(View())
      ensures var k := old(sockets)[i];
              var r := Delivery.ReceiveHead(k.queue[0], size, flagsIn, k.subscribed, ok, code);
              result == r.result && chunk == r.chunk && flags == r.flags && View() == ReceivedGlobal(old(View()), i, r)
      ensures |chunk| <= size && (result >= 0 ==> result == |chunk|)
    {
      var k := sockets[i];
      var n := k.queue[0];
      SameRecord(n, size, flagsIn, k.subscribed, ok, code);
      Delivery.CopiesWhatFits(n, size, flagsIn, k.subscribed, ok, code);
      var updated, next;
      result, chunk, flags, updated, next := Delivery.ReadHead(n, size, flagsIn, k.subscribed, ok, code);
      if updated {
        UpdateGlobalKeeps(View(), i, next);
        sockets := sockets[i := k.(queue := k.queue[0 := next])];
      } else {
        DropGlobalHead(i);
      }
    }

    method GetErrorCode(i: Instance, a: AssocId) returns (code: int)
      ensures code == ErrorCode(View(), i, a)
    {
      code := 0;
      if a in assocs && assocs[a].socket == i {
        if assocs[a].complete {
          code := -Delivery.ECONNRESET;
        } else if assocs[a].lost {
          code := -Delivery.ECONNABORTED;
        }
      }
    }

    /** The drop at the end of internalReceive; the "too many decrements" branch cannot be reached. */
    method DropGlobalHead(i: Instance)
      requires Inv(View()) && i in sockets && sockets[i].queue != []
      modifies this
      ensures Inv(View()) && View() == DropGlobal(old(View()), i)
    {
      DropGlobalKeeps(View(), i);
      assert AssocOk(View(), 0);
      TakeGlobalHead(i);
    }

    method TakeGlobalHead(i: Instance)
      requires i in sockets && sockets[i].queue != [] && 0 !in assocs
      requires var a := sockets[i].queue[0].assoc;
               a in assocs && assocs[a].socket == i ==> assocs[a].useCount > 0
      modifies this
      ensures View() == DropGlobal(old(View()), i)
    {
      ChargeHead(i, sockets[i].queue[0]);
      DropRecord(i);
    }

    method ChargeHead(i: Instance, n: Notification)
      requires 0 !in assocs
      requires n.assoc in assocs && assocs[n.assoc].socket == i ==> assocs[n.assoc].useCount > 0
      modifies this`assocs, this`leaked
      ensures var live := n.assoc in old(assocs) && old(assocs)[n.assoc].socket == i;
              var named := Delivery.Accounted(n, 0) == n.assoc;
              && assocs == (if live && named then old(assocs)[n.assoc := Charged(old(assocs)[n.assoc], clock)] else old(assocs))
              && leaked == (if live && !named then old(leaked) + multiset{n.assoc} else old(leaked))
    {
      var a := Delivery.Accounted(n, 0);
      AccountFor(i, a);
      if a != n.assoc && n.assoc in assocs && assocs[n.assoc].socket == i {
        leaked := leaked + multiset{n.assoc};
      }
    }

    method DropRecord(i: Instance)
      requires i in sockets && sockets[i].queue != []
      modifies this`sockets
      ensures var k := old(sockets)[i].(queue := old(sockets)[i].queue[1..]);
              sockets == old(sockets)[i := k.(readReady := SocketHasData(k) || k.requests != [])]
    {
      var k := sockets[i].(queue := sockets[i].queue[1..]);
      sockets := sockets[i := k.(readReady := SocketHasData(k) || k.requests != [])];
    }

    method AccountFor(i: Instance, a: AssocId)
      requires a in assocs && assocs[a].socket == i ==> assocs[a].useCount > 0
      modifies this`assocs
      ensures assocs == if a in old(assocs) && old(assocs)[a].socket == i
                        then old(assocs)[a := Charged(old(assocs)[a], clock)] else old(assocs)
    {
      if a in assocs && assocs[a].socket == i {
        var x := assocs[a].(lastUsage := clock);
        if x.useCount > 0 {
          x := x.(useCount := x.useCount - 1);
        } else {
          assert false;
        }
        assocs := assocs[a := x.(readReady := HasData(x.inQueue, x.subscribed) || x.complete || x.lost)];
      }
    }

    /** internalReceive on an association's own queue. */
    method ReceiveOwn(a: AssocId, size: nat, flagsIn: Delivery.Flags, ok: bool)
      returns (result: int, chunk: seq<Byte>, flags: Delivery.Flags, blocked: bool)
      requires Inv(View()) && a in assocs
      modifies this
      ensures Inv(View())
      ensures var p := OwnPass(old(View()), a, size, flagsIn, ok);
              result == p.result && chunk == p.chunk && flags == p.flags && blocked == p.blocked
      ensures var x := old(assocs)[a];
              if size == 0 || x.inQueue == [] then View() == old(View())
              else
                var r := Delivery.ReceiveHead(x.inQueue[0], size, flagsIn, x.subscribed, ok,
                                              ErrorCode(old(View()), x.socket, a));
                && View() == ReceivedOwn(old(View()), a, r)
                && a in assocs && assocs[a].inQueue == Delivery.QueueAfter(x.inQueue, r)
      ensures |chunk| <= size && (result >= 0 ==> result == |chunk|)
    {
      flags, chunk, blocked, result := flagsIn, [], false, 0;
      if size == 0 {
        result := -Delivery.EINVAL;
        return;
      }
      var code := GetErrorCode(assocs[a].socket, a);
      if assocs[a].inQueue == [] {
        if code == -Delivery.ECONNRESET {
          flags := flags.(notification := false);
        } else if code != 0 {
          result := code;
        } else if flags.dontWait {
          result := -Delivery.EAGAIN;
        } else {
          blocked := true;
        }
        return;
      }
      ghost var s := View();
      assert AssocOk(s, a);
      result, chunk, flags := ReadOwn(a, size, flagsIn, ok, code);
      OwnQueueAfter(s, a, Delivery.ReceiveHead(s.assocs[a].inQueue[0], size, flagsIn, s.assocs[a].subscribed, ok, code));
    }

    /** A receive that finds a record. */
    method ReadOwn(a: AssocId, size: nat, flagsIn: Delivery.Flags, ok: bool, code: int)
      returns (result: int, chunk: seq<Byte>, flags: Delivery.Flags)
      requires Inv(View()) && a in assocs && assocs[a].inQueue != [] && size > 0
      requires code == ErrorCode(View(), assocs[a].socket, a)
      modifies this
      ensures Inv(View())
      ensures var x := old(assocs)[a];
              var r := Delivery.ReceiveHead(x.inQueue[0], size, flagsIn, x.subscribed, ok, code);
              result == r.result && chunk == r.chunk && flags == r.flags && View() == ReceivedOwn(old(View()), a, r)
      ensures |chunk| <= size && (code <= 0 && result >= 0 ==> result == |chunk|)
    {
      var x := assocs[a];
      var n := x.inQueue[0];
      assert n.assoc == a by { DropOwnKeeps(View(), a); }
      SameRecord(n, size, flagsIn, x.subscribed, ok, code);
      Delivery.CopiesWhatFits(n, size, flagsIn, x.subscribed, ok, code);
      var updated, next;
      result, chunk, flags, updated, next := Delivery.ReadHead(n, size, flagsIn, x.subscribed, ok, code);
      if updated {
        UpdateOwnKeeps(View(), a, next);
        assocs := assocs[a := x.(inQueue := x.inQueue[0 := next])];
      } else {
        DropOwnHead(a);
      }
    }

    /** The drop at the end of a receive on an own queue. */
    method DropOwnHead(a: AssocId)
      requires Inv(View()) && a in assocs && assocs[a].inQueue != []
      modifies this`assocs
      ensures Inv(View()) && View() == DropOwn(old(View()), a)
    {
      DropOwnKeeps(View(), a);
      var x := assocs[a].(inQueue := assocs[a].inQueue[1..]);
      x := x.(lastUsage := clock, useCount := x.useCount - 1);
      assocs := assocs[a := x.(readReady := HasData(x.inQueue, x.subscribed) || x.complete || x.lost)];
    }

    /** ext_close's part on an accepted or peeled-off association: linger, then delete. */
    method CloseAssociation(a: AssocId, shutdown: bool, abort: bool)
      requires Inv(View()) && AssocOk(View(), a) && a in assocs && a !in dying && Unlisted(View(), a)
      modifies this
      ensures Inv(View()) && a !in assocs && dying == old(dying)
      ensures a in lib.aborted <==> (abort && !shutdown) || a in old(lib).aborted
      ensures OffLists(old(View())) - {a} <= OffLists(View())
    {
      if shutdown {
        ShutdownHeld(a);
      } else if abort {
        AbortHeld(a);
      }
      assert AssocOk(View(), a);
      ghost var s := View();
      ghost var u := Delete(a);
      DeleteStaysOff(s, u, View(), a);
    }

    method BindSocket(i: Instance, globalQueue: bool, autoConnect: bool, timeout: nat, subscribed: Subscription)
      requires Inv(View()) && i !in lib.usedInstances
      modifies this
      ensures Inv(View())
      ensures View() == Bind(old(View()), i, NewSocket(globalQueue, autoConnect, timeout, subscribed))
      ensures i in sockets && i in lib.instances && assocs == old(assocs) && lib.assocs == old(lib).assocs
      ensures var k := sockets[i];
              && k.globalQueue == globalQueue && k.autoConnect == autoConnect && k.autoCloseTimeout == timeout
              && k.subscribed == subscribed && !k.listening && !k.readReady && !k.inAutoClose && !k.recheck
              && k.queue == [] && k.requests == [] && k.connectionless == {}
    {
      BindKeeps(View(), i, NewSocket(globalQueue, autoConnect, timeout, subscribed));
      lib := lib.(instances := lib.instances + {i}, usedInstances := lib.usedInstances + {i});
      sockets := sockets[i := NewSocket(globalQueue, autoConnect, timeout, subscribed)];
    }

    method Listen(i: Instance, backlog: nat)
      requires Inv(View()) && i in sockets
      modifies this
      ensures Inv(View())
      ensures View() == SetSocket(old(View()), i, old(sockets)[i].(listening := backlog > 0))
    {
      NeutralSocket(View(), i, sockets[i].(listening := backlog > 0));
      sockets := sockets[i := sockets[i].(listening := backlog > 0)];
    }

    /** The socket's AssociationList. */
    function AssociationList(i: Instance): set<AssocId>
      reads this
    {
      set a | a in assocs && assocs[a].socket == i
    }

    /** The end of a destructor: it looks for its association on the list and stops the program if it is
        not there. */
    method FindOnList(list: set<AssocId>, a: AssocId) returns (alive: bool)
      ensures alive <==> a in list
    {
      alive := a in list;
    }

    /**
      * unbind.  Its second loop erases an association from the list and then deletes it, and the
      * destructor stops the program (`alive` is false): unbinding succeeds exactly when every
      * association of the socket is on its connectionless list.
      */
    method Unbind(i: Instance, sendAbort: bool) returns (alive: bool)
      requires Inv(View()) && i in sockets && dying == {}
      modifies this
      ensures Inv(View())
      ensures dying == {} && (alive <==> Strays(old(View()), i) == {})
      ensures alive ==> i !in sockets && i in closingSockets && forall a :: a in assocs ==> assocs[a].socket != i
      ensures OffLists(old(View())) <= OffLists(View())
    {
      ghost var s := View();
      while sockets[i].connectionless != {}
        invariant Inv(View()) && i in sockets && dying == {}
        invariant Strays(View(), i) == Strays(s, i) && OffLists(s) <= OffLists(View())
        decreases sockets[i].connectionless
      {
        var a :| a in sockets[i].connectionless;
        DeleteListed(i, a, sendAbort);
      }
      var list := AssociationList(i);
      assert list == Strays(View(), i);
      if list != {} {
        // The second loop: its first pass erases an association, deletes it, and does not come back.
        var a :| a in list;
        list := list - {a};
        alive := FindOnList(list, a);
        return;
      }
      assert forall a :: a in assocs ==> a !in Strays(View(), i);
      RemoveSocketKeeps(View(), i);
      RemovedSocketStaysOff(View(), i);
      sockets := sockets - {i};
      closingSockets := closingSockets + {i};
      alive := true;
    }

    /** One round of unbind's first loop. */
    method DeleteListed(i: Instance, a: AssocId, sendAbort: bool)
      requires Inv(View()) && i in sockets && a in sockets[i].connectionless && dying == {}
      modifies this
      ensures Inv(View()) && i in sockets && dying == {} && a !in assocs
      ensures a in lib.aborted <==> sendAbort || a in old(lib).aborted
      ensures Strays(View(), i) == Strays(old(View()), i)
      ensures sockets[i].connectionless <= old(sockets)[i].connectionless - {a}
      ensures OffLists(old(View())) <= OffLists(View())
    {
      ghost var s := View();
      assert ListOk(s, i, a);
      DetachKeeps(s, i, a);
      SocketStaysOff(s, i, s.sockets[i].(connectionless := s.sockets[i].connectionless - {a}));
      sockets := sockets[i := sockets[i].(connectionless := sockets[i].connectionless - {a})];
      assert AssocOk(View(), a);
      assert Strays(View(), i) == Strays(s, i) + {a};
      if sendAbort {
        AbortHeld(a);
        assert AssocOk(View(), a);
      }
      ghost var t := View();
      ghost var u := Delete(a);
      DeleteSame(t, u, View(), i, a);
      DeleteStaysOff(t, u, View(), a);
    }

    /** The association is alive and on no list of its socket. */
    predicate IsOffLists(a: AssocId)
      reads this
    {
      && a in assocs && assocs[a].socket in sockets
      && a !in sockets[assocs[a].socket].connectionless && a !in sockets[assocs[a].socket].requests
    }

    // -------------------------------------------------------------- whole runs

    constructor ()
      ensures Inv(View()) && dying == {} && lib.used == {} && lib.usedInstances == {}
    {
      assocs, sockets, closingAssocs, closingSockets := map[], map[], map[], {};
      lib := Library(map[], {}, {}, {}, {}, {}, multiset{}, multiset{});
      inflight, leaked, dying, clock := multiset{}, multiset{}, {}, 0;
    }

    method Tick(duration: nat)
      requires Inv(View())
      modifies this`clock
      ensures Inv(View()) && clock == old(clock) + duration
    {
      ghost var s := View();
      clock := clock + duration;
      forall b ensures AssocOk(View(), b) { assert AssocOk(s, b); }
      forall b ensures IdOk(View(), b) { assert IdOk(s, b); }
      forall j ensures InstanceOk(View(), j) { assert InstanceOk(s, j); }
      forall j, b ensures ListOk(View(), j, b) { assert ListOk(s, j, b); }
    }

    /** Carries one event out, unless it cannot happen now. */
    method Callback(e: Event)
      requires Inv(View()) && dying == {}
      modifies this
      ensures Inv(View()) && dying == {} && OffLists(old(View())) <= OffLists(View())
    {
      match e {
        case Notified(n) => CallNotified(n);
        case Up(a, i, outStreams, inStreams) => CallUp(a, i, outStreams, inStreams);
        case Lost(a) => CallEnded(a, true);
        case Completed(a) => CallEnded(a, false);
        case Timer =>
          ghost var s := View();
          SocketGarbageCollection();
          EvolvesStaysOff(s, View());
        case Passed(duration) =>
          ghost var s := View();
          Tick(duration);
          StayOff(s, View());
      }
    }

    method CallNotified(n: Notification)
      requires Inv(View()) && dying == {}
      modifies this
      ensures Inv(View()) && dying == {} && OffLists(old(View())) <= OffLists(View())
    {
      assert AssocOk(View(), n.assoc);
      if n.assoc in assocs {
        DeliverStaysOff(View(), n);
      }
      if n.assoc in lib.assocs {
        Notify(n);
      }
    }

    method CallUp(a: AssocId, i: Instance, outStreams: nat, inStreams: nat)
      requires Inv(View()) && dying == {}
      modifies this
      ensures Inv(View()) && dying == {} && OffLists(old(View())) <= OffLists(View())
    {
      assert AssocOk(View(), a);
      if if a in assocs then !assocs[a].shuttingDown && assocs[a].socket == i
         else a != 0 && a !in lib.used && i in lib.instances {
        ghost var s := View();
        CommunicationUp(a, i, outStreams, inStreams);
        UpStaysOff(s, View(), a, i, outStreams, inStreams);
      }
    }

    method CallEnded(a: AssocId, lost: bool)
      requires Inv(View()) && dying == {}
      modifies this
      ensures Inv(View()) && dying == {} && OffLists(old(View())) <= OffLists(View())
    {
      if a in lib.assocs && a !in lib.ended {
        ghost var s := View();
        assert IdOk(s, a) && AssocOk(s, a);
        if lost {
          CommunicationLost(a);
        } else {
          ShutdownComplete(a);
        }
        EndStaysOff(s, View(), a, lost);
      }
    }

    /** The program goes on, unless an unbind stops it. */
    method Call(c: AppCall) returns (alive: bool)
      requires Inv(View()) && dying == {}
      modifies this
      ensures Inv(View()) && dying == {} && OffLists(old(View())) - Parted(old(View()), c) <= OffLists(View())
      ensures alive <==> !(c.UnbindFrom? && c.i in old(sockets) && Strays(old(View()), c.i) != {})
    {
      alive := true;
      match c {
        case Associate(i, a) => CallAssociate(i, a);
        case ReceiveFrom(i, size, flags, ok) => if i in sockets { CallReceive(i, size, flags, ok); }
        case ReceiveOn(a, size, flags, ok) => if a in assocs { CallReceiveOwn(a, size, flags, ok); }
        case UnbindFrom(i, sendAbort) => if i in sockets { alive := Unbind(i, sendAbort); }
        case OnAssociation(a, use) => assert AssocOk(View(), a); if a in assocs { UseAssociation(a, use); }
        case _ => CallOnSocket(c);
      }
    }

    method CallOnSocket(c: AppCall)
      requires Inv(View()) && dying == {}
      modifies this
      ensures Inv(View()) && dying == {} && OffLists(old(View())) <= OffLists(View())
    {
      ghost var s := View();
      match c {
        case BindTo(i, globalQueue, autoConnect, timeout, subscribed) =>
          if i !in lib.usedInstances {
            assert InstanceOk(s, i);
            BindSocket(i, globalQueue, autoConnect, timeout, subscribed);
            StayOff(s, View());
          }
        case ListenOn(i, backlog) =>
          if i in sockets {
            Listen(i, backlog);
            SocketStaysOff(s, i, sockets[i]);
          }
        case AcceptFrom(i) =>
          if i in sockets {
            var a := Accept(i);
            if a != 0 {
              AcceptStaysOff(s, i);
            }
          }
        case AutoConnect(i) =>
          if i in sockets {
            CheckAutoConnect(i);
            if s.sockets[i].autoConnect {
              ListingStaysOff(s, View(), i);
            }
          }
        case Peel(i, a) =>
          assert ListOk(s, i, a);
          if i in sockets {
            var ok := PeelOffAssociation(i, a);
            if ok {
              PeelOffStaysOff(s, i, a);
            }
          }
        case _ =>
      }
    }

    method CallAssociate(i: Instance, a: AssocId)
      requires Inv(View()) && dying == {}
      modifies this
      ensures Inv(View()) && dying == {} && OffLists(old(View())) <= OffLists(View())
    {
      if i in sockets && a != 0 && a !in lib.used {
        assert AssocOk(View(), a);
        CreateStaysOff(View(), i, a, false);
        AssociateBegin(i, a);
      }
    }

    method CallReceive(i: Instance, size: nat, flags: Delivery.Flags, ok: bool)
      requires Inv(View()) && dying == {} && i in sockets
      modifies this
      ensures Inv(View()) && dying == {} && OffLists(old(View())) <= OffLists(View())
    {
      ghost var s := View();
      var _, _, _, _ := Receive(i, size, flags, ok);
      if size > 0 && s.sockets[i].queue != [] {
        var n := s.sockets[i].queue[0];
        ReceiveStaysOff(s, i, Delivery.ReceiveHead(n, size, flags, s.sockets[i].subscribed, ok, ErrorCode(s, i, n.assoc)));
      }
    }

    method CallReceiveOwn(a: AssocId, size: nat, flags: Delivery.Flags, ok: bool)
      requires Inv(View()) && dying == {} && a in assocs
      modifies this
      ensures Inv(View()) && dying == {} && OffLists(old(View())) <= OffLists(View())
    {
      ghost var s := View();
      var _, _, _, _ := ReceiveOwn(a, size, flags, ok);
      if size > 0 && s.assocs[a].inQueue != [] {
        var x := s.assocs[a];
        ReceiveOwnStaysOff(s, a, Delivery.ReceiveHead(x.inQueue[0], size, flags, x.subscribed, ok, ErrorCode(s, x.socket, a)));
      }
    }

    method UseAssociation(a: AssocId, use: Use)
      requires Inv(View()) && AssocOk(View(), a) && dying == {} && a in assocs
      modifies this
      ensures Inv(View()) && dying == {} && OffLists(old(View())) - PartedBy(old(View()), a, use) <= OffLists(View())
    {
      var i := assocs[a].socket;
      var unlisted := a !in sockets[i].connectionless && a !in sockets[i].requests;
      match use {
        case Associated(blocking) =>
          if a in inflight && unlisted { var _ := AssociateEnd(a, blocking); }
        case Sending(empty, eof, abort) => CallSending(a, empty, eof, abort);
        case SendingNew => if !assocs[a].peeledOff && unlisted { SendNew(i, a); }
        case Sent(eof, abort) => if a in inflight { CallSent(a, eof, abort); }
        case Close(shutdown, abort) =>
          if unlisted { CloseAssociation(a, shutdown, abort); }
      }
    }

    method CallSending(a: AssocId, empty: bool, eof: bool, abort: bool)
      requires Inv(View()) && dying == {} && a in assocs
      modifies this
      ensures Inv(View()) && dying == {} && OffLists(old(View())) <= OffLists(View())
    {
      ghost var s := View();
      var proceeds := SendBegin(a, empty, eof, abort);
      if proceeds {
        StayOff(s, Hold(s, a));
      }
    }

    method CallSent(a: AssocId, eof: bool, abort: bool)
      requires Inv(View()) && AssocOk(View(), a) && dying == {} && a in assocs && a in inflight
      modifies this
      ensures Inv(View()) && dying == {}
      ensures OffLists(old(View())) - Removed(old(View()), a, eof || abort) <= OffLists(View())
    {
      var i := assocs[a].socket;
      var removes := (eof || abort) && sockets[i].autoConnect;
      if !(removes && a in sockets[i].requests) {
        SendEnd(a, eof, abort);
      }
    }

    /** Every run keeps every promise: whatever sctplib reports and the application calls, in any order
        and number, up to an unbind that stops the program. */
    method Run(steps: seq<Step>) returns (n: nat, alive: bool)
      requires Inv(View()) && dying == {}
      modifies this
      ensures Inv(View()) && dying == {} && n <= |steps|
      ensures if alive then n == |steps| else n > 0 && steps[n - 1].Application? && steps[n - 1].c.UnbindFrom?
    {
      n, alive := 0, true;
      while n < |steps| && alive
        invariant Inv(View()) && dying == {} && n <= |steps|
        invariant !alive ==> n > 0 && steps[n - 1].Application? && steps[n - 1].c.UnbindFrom?
      {
        match steps[n] {
          case FromLibrary(e) => Callback(e);
          case Application(c) => alive := Call(c);
        }
        n := n + 1;
      }
    }
  }

  // ---------------------------------------------------------------- two runs that go wrong

  /** A peer's association waits to be accepted on an auto-connect socket. */
  method Waiting(m: SocketMaster, subscribed: Subscription)
    requires Inv(m.View()) && m.dying == {} && m.lib.used == {} && m.lib.usedInstances == {}
    modifies m
    ensures Inv(m.View()) && m.dying == {}
    ensures 1 in m.sockets && m.sockets[1].autoConnect && m.sockets[1].listening && m.sockets[1].requests == [7]
    ensures 7 in m.assocs && m.assocs[7].socket == 1 && !m.assocs[7].complete && !m.assocs[7].shuttingDown
  {
    m.BindSocket(1, true, true, 0, subscribed);
    m.Listen(1, 1);
    IncomingWaits(m.View(), 1, 7, 1, 1);
    m.CommunicationUp(7, 1, 1, 1);
  }

  /** Removing it, as a send with MSG_EOF does, leaves a request that names an object that is gone. */
  method RemovedWhileWaiting(subscribed: Subscription) returns (m: SocketMaster)
    ensures fresh(m) && Inv(m.View()) && 1 in m.sockets && 7 in m.sockets[1].requests
    ensures 7 in m.assocs && !Inv(EndDying(BeginDying(Detach(m.View(), 1, 7), 7), 7))
  {
    m := new SocketMaster();
    Waiting(m, subscribed);
    assert AssocOk(m.View(), 7);
    RemovalSoundIff(m.View(), 1, 7);
  }

  /** Unbinding the socket of an accepted association stops the program. */
  method UnboundWhileAccepted(subscribed: Subscription) returns (alive: bool)
    ensures !alive
  {
    var m := new SocketMaster();
    Waiting(m, subscribed);
    var a := m.Accept(1);
    assert AssocOk(m.View(), 7);
    assert 7 in Strays(m.View(), 1);
    alive := m.Unbind(1, false);
  }

  /** What sctplib reports, and the passing of time. */
  datatype Event =
    | Notified(n: Notification)
    | Up(a: AssocId, i: Instance, outStreams: nat, inStreams: nat)
    | Lost(a: AssocId)
    | Completed(a: AssocId)
    | Timer
    | Passed(duration: nat)

  /** What the application calls. */
  datatype AppCall =
    | BindTo(i: Instance, globalQueue: bool, autoConnect: bool, timeout: nat, subscribed: Subscription)
    | ListenOn(i: Instance, backlog: nat)
    | Associate(i: Instance, a: AssocId)
    | AcceptFrom(i: Instance)
    | AutoConnect(i: Instance)
    | Peel(i: Instance, a: AssocId)
    | ReceiveFrom(i: Instance, size: nat, flags: Delivery.Flags, ok: bool)
    | ReceiveOn(a: AssocId, size: nat, flags: Delivery.Flags, ok: bool)
    | UnbindFrom(i: Instance, sendAbort: bool)
    | OnAssociation(a: AssocId, use: Use)

  /** The two halves of associate and sendTo, between which other steps may happen, and closing. */
  datatype Use =
    | Associated(blocking: bool)
    | Sending(empty: bool, eof: bool, abort: bool)
    | SendingNew
    | Sent(eof: bool, abort: bool)
    | Close(shutdown: bool, abort: bool)

  /** The association that a use may take off its socket's lists or put on one. */
  function PartedBy(s: State, a: AssocId, use: Use): set<AssocId> {
    match use
    case Sending(_, _, _) => {}
    case Sent(eof, abort) => Removed(s, a, eof || abort)
    case _ => {a}
  }

  function Parted(s: State, c: AppCall): set<AssocId> {
    if c.OnAssociation? then PartedBy(s, c.a, c.use) else {}
  }

  datatype Step = FromLibrary(e: Event) | Application(c: AppCall)
}
