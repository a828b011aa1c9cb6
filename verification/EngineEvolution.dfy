/**
  * What auto-closing, and everything sctplib calls back while it runs, may do to the state: end and
  * remove connectionless associations that nobody uses, and nothing else.
  */
module EngineEvolution {
  import opened Basics
  import opened Notifications
  import opened EngineState

  /** A listed association without users whose idle time asks for a shutdown or an abort. */
  predicate Expired(s: State, a: AssocId) {
    a in s.assocs &&
    var x := s.assocs[a];
    x.socket in s.sockets &&
    var k := s.sockets[x.socket];
    && a in k.connectionless && x.useCount == 0 && !x.complete && !x.lost
    && k.autoCloseTimeout > 0
    && (s.clock > x.lastUsage + 4 * k.autoCloseTimeout
        || (s.clock > x.lastUsage + k.autoCloseTimeout && !x.shuttingDown))
  }

  /** One that asks for an abort. */
  predicate Overdue(s: State, a: AssocId) {
    Expired(s, a) && s.clock > s.assocs[a].lastUsage + 4 * s.sockets[s.assocs[a].socket].autoCloseTimeout
  }

  /** A listed association without users that is closed. */
  predicate Finished(s: State, a: AssocId) {
    a in s.assocs &&
    var x := s.assocs[a];
    x.socket in s.sockets && a in s.sockets[x.socket].connectionless
    && x.useCount == 0 && (x.complete || x.lost)
  }

  /** Nothing is left to do for a listed association: it is not finished, and if its time is up it has
      been told so and waits for sctplib to report the end. */
  predicate Handled(s: State, a: AssocId) {
    !Finished(s, a) && (Expired(s, a) ==> a in s.lib.aborted)
  }

  /** Nothing is left to do for auto-close on this socket. */
  ghost predicate Settled(s: State, i: Instance) {
    SettledBut(s, i, {})
  }

  /** Nothing is left to do except for the given associations. */
  ghost predicate SettledBut(s: State, i: Instance, todo: set<AssocId>) {
    i in s.sockets && forall a {:trigger Handled(s, a)} ::
      a in s.sockets[i].connectionless && a !in todo ==> Handled(s, a)
  }

  /** An association only changes if it had expired, and only disappears if it had expired or
      finished. */
  ghost predicate EvolvedAssoc(s: State, t: State, a: AssocId) {
    && (a in t.assocs ==> a in s.assocs)
    && (a in s.assocs && a !in t.assocs ==> Expired(s, a) || Finished(s, a))
    && (a in t.assocs ==>
          var x, y := s.assocs[a], t.assocs[a];
          if !Expired(s, a) then y == x
          else
            && y.socket == x.socket && y.up == x.up && y.peeledOff == x.peeledOff
            && y.lastUsage == x.lastUsage && y.subscribed == x.subscribed
            && (x.shuttingDown ==> y.shuttingDown)
            && x.inQueue <= y.inQueue
            && (AssocChange !in x.subscribed ==> y.useCount == x.useCount && y.inQueue == x.inQueue))
  }

  /** A socket keeps its configuration and requests; its queue only grows, and exactly the removed
      associations leave its list. */
  ghost predicate EvolvedSocket(s: State, t: State, i: Instance) {
    && (i in s.sockets <==> i in t.sockets)
    && (i in s.sockets ==>
          var k, l := s.sockets[i], t.sockets[i];
          && l == k.(queue := l.queue, connectionless := l.connectionless, readReady := l.readReady, recheck := l.recheck)
          && k.queue <= l.queue
          && l.connectionless <= k.connectionless)
    && (i in t.closingSockets ==> i in s.closingSockets)
  }

  ghost predicate EvolvedListing(s: State, t: State, i: Instance, a: AssocId) {
    i in s.sockets && i in t.sockets && a in s.sockets[i].connectionless && a !in t.sockets[i].connectionless ==>
      a !in t.assocs
  }

  /** sctplib's associations and the deferred ones only go away by being released, and only overdue
      associations are aborted. */
  ghost predicate EvolvedId(s: State, t: State, a: AssocId) {
    && (a in t.closingAssocs ==> a in s.closingAssocs && t.closingAssocs[a] == s.closingAssocs[a])
    && (a in s.closingAssocs && a !in t.closingAssocs ==> a !in t.lib.assocs)
    && (a in t.lib.assocs ==> a in s.lib.assocs && t.lib.assocs[a] == s.lib.assocs[a])
    && (a in s.lib.assocs && a !in t.lib.assocs ==> a in s.closingAssocs || (a in s.assocs && a !in t.assocs))
    && (a in s.lib.ended ==> a in t.lib.ended)
    && (a in s.lib.aborted ==> a in t.lib.aborted)
    && (a in t.lib.aborted && a !in s.lib.aborted ==> Overdue(s, a))
  }

  ghost predicate EvolvedRest(s: State, t: State) {
    && t.inflight == s.inflight && t.leaked == s.leaked && t.dying == s.dying && t.clock == s.clock
    && t.lib.used == s.lib.used && t.lib.usedInstances == s.lib.usedInstances
  }

  ghost predicate EvolvedBase(s: State, t: State) {
    && EvolvedRest(s, t)
    && (forall a {:trigger EvolvedAssoc(s, t, a)} :: EvolvedAssoc(s, t, a))
    && (forall a {:trigger EvolvedId(s, t, a)} :: EvolvedId(s, t, a))
    && (forall i {:trigger EvolvedSocket(s, t, i)} :: EvolvedSocket(s, t, i))
    && (forall i, a {:trigger EvolvedListing(s, t, i, a)} :: EvolvedListing(s, t, i, a))
  }

  /** No association is left finished on a socket's list that was not before, except while the socket
      is being checked and will be checked again. */
  ghost predicate EvolvedEnds(s: State, t: State, i: Instance) {
    i in s.sockets && i in t.sockets ==>
      && (s.sockets[i].inAutoClose && s.sockets[i].recheck ==> t.sockets[i].recheck)
      && (!(t.sockets[i].inAutoClose && t.sockets[i].recheck) ==>
            forall a {:trigger Finished(t, a)} ::
              a in t.sockets[i].connectionless && Finished(t, a) ==> Finished(s, a))
  }

  ghost predicate Evolves(s: State, t: State) {
    EvolvedBase(s, t) && forall i {:trigger EvolvedEnds(s, t, i)} :: EvolvedEnds(s, t, i)
  }

  /** The same, seen from inside the check of the socket k. */
  ghost predicate EvolvesBut(s: State, t: State, k: Instance) {
    EvolvedBase(s, t) && forall i {:trigger EvolvedEnds(s, t, i)} :: i != k ==> EvolvedEnds(s, t, i)
  }

  lemma EvolvesRefl(s: State)
    ensures Evolves(s, s)
  {
  }

  lemma ChainAssoc(s: State, t: State, u: State, a: AssocId)
    requires EvolvedAssoc(s, t, a) && EvolvedAssoc(t, u, a) && EvolvedRest(s, t)
    requires a in s.assocs ==> AssocOk(s, a)
    requires a in s.assocs ==> EvolvedSocket(s, t, s.assocs[a].socket)
    ensures EvolvedAssoc(s, u, a)
  {
  }

  lemma ChainId(s: State, t: State, u: State, a: AssocId)
    requires EvolvedId(s, t, a) && EvolvedId(t, u, a) && EvolvedRest(s, t)
    requires EvolvedAssoc(s, t, a) && EvolvedAssoc(t, u, a)
    requires a in s.assocs ==> AssocOk(s, a) && EvolvedSocket(s, t, s.assocs[a].socket)
    ensures EvolvedId(s, u, a)
  {
  }

  lemma ChainEnds(s: State, t: State, u: State, i: Instance)
    requires EvolvedEnds(s, t, i) && EvolvedEnds(t, u, i) && EvolvedSocket(s, t, i) && EvolvedSocket(t, u, i)
    ensures EvolvedEnds(s, u, i)
  {
  }

  lemma EvolvesTrans(s: State, t: State, u: State)
    requires Evolves(s, t) && Evolves(t, u) && Inv(s)
    ensures Evolves(s, u)
  {
    EvolvedBaseTrans(s, t, u);
    forall i ensures EvolvedEnds(s, u, i) {
      assert EvolvedEnds(s, t, i) && EvolvedEnds(t, u, i) && EvolvedSocket(s, t, i) && EvolvedSocket(t, u, i);
      ChainEnds(s, t, u, i);
    }
  }

  lemma EvolvesButTrans(s: State, t: State, u: State, k: Instance)
    requires EvolvesBut(s, t, k) && EvolvesBut(t, u, k) && Inv(s)
    ensures EvolvesBut(s, u, k)
  {
    EvolvedBaseTrans(s, t, u);
    forall i | i != k ensures EvolvedEnds(s, u, i) {
      assert EvolvedEnds(s, t, i) && EvolvedEnds(t, u, i) && EvolvedSocket(s, t, i) && EvolvedSocket(t, u, i);
      ChainEnds(s, t, u, i);
    }
  }

  lemma EvolvedBaseTrans(s: State, t: State, u: State)
    requires EvolvedBase(s, t) && EvolvedBase(t, u) && Inv(s)
    ensures EvolvedBase(s, u)
  {
    forall a ensures EvolvedAssoc(s, u, a) {
      assert EvolvedAssoc(s, t, a) && EvolvedAssoc(t, u, a) && AssocOk(s, a);
      if a in s.assocs { assert EvolvedSocket(s, t, s.assocs[a].socket); }
      ChainAssoc(s, t, u, a);
    }
    forall a ensures EvolvedId(s, u, a) {
      assert EvolvedId(s, t, a) && EvolvedId(t, u, a) && EvolvedAssoc(s, t, a) && EvolvedAssoc(t, u, a);
      assert AssocOk(s, a);
      if a in s.assocs { assert EvolvedSocket(s, t, s.assocs[a].socket); }
      ChainId(s, t, u, a);
    }
    forall i ensures EvolvedSocket(s, u, i) {
      assert EvolvedSocket(s, t, i) && EvolvedSocket(t, u, i);
    }
    forall i, a ensures EvolvedListing(s, u, i, a) {
      assert EvolvedListing(s, t, i, a) && EvolvedListing(t, u, i, a) && EvolvedSocket(s, t, i);
      assert EvolvedAssoc(t, u, a);
    }
  }

  /** Auto-close never takes an association with undelivered notifications, a call in flight, or a
      leaked use, whatever happens in between. */
  lemma AutoCloseIsSafe(s: State, t: State, a: AssocId)
    requires Inv(s) && Evolves(s, t) && a in s.assocs && s.assocs[a].socket in s.sockets
    requires Undelivered(s, a) > 0 || a in s.inflight || a in s.leaked || a !in s.sockets[s.assocs[a].socket].connectionless
    ensures a in t.assocs && t.assocs[a] == s.assocs[a] && (a in t.lib.aborted <==> a in s.lib.aborted)
  {
    assert AssocOk(s, a) && EvolvedAssoc(s, t, a) && EvolvedId(s, t, a);
  }

  /** What is settled stays settled, unless the socket will be checked again anyway. */
  lemma SettledStays(s: State, t: State, i: Instance, todo: set<AssocId>)
    requires Inv(s) && Evolves(s, t) && SettledBut(s, i, todo)
    requires i in t.sockets ==> !(t.sockets[i].inAutoClose && t.sockets[i].recheck)
    ensures SettledBut(t, i, todo)
  {
    assert EvolvedSocket(s, t, i) && EvolvedEnds(s, t, i);
    forall a | a in t.sockets[i].connectionless && a !in todo ensures Handled(t, a) {
      assert ListOk(s, i, a) && EvolvedAssoc(s, t, a) && EvolvedId(s, t, a) && Handled(s, a);
    }
  }

  /** So do all the sockets of `s` that are idle and not still to do. */
  lemma AllStaySettled(s: State, t: State, u: State, todo: set<Instance>)
    requires Inv(t) && Evolves(t, u) && Evolves(s, u)
    requires forall j :: j in s.sockets && j !in todo && !s.sockets[j].inAutoClose ==> Settled(t, j)
    ensures forall j :: j in s.sockets && j !in todo && !s.sockets[j].inAutoClose ==> Settled(u, j)
  {
    forall j | j in s.sockets && j !in todo && !s.sockets[j].inAutoClose ensures Settled(u, j) {
      assert EvolvedSocket(s, u, j);
      SettledStays(t, u, j, {});
    }
  }

  // ---------------------------------------------------------------- the steps auto-close takes

  lemma MarkEndKeeps(s: State, a: AssocId, lost: bool)
    requires Inv(s) && a in s.assocs && a !in s.dying
    ensures s.assocs[a].socket in s.sockets && Inv(MarkEnd(s, a, lost))
  {
    assert AssocOk(s, a);
    FinishKeeps(s, a, lost);
    DeliverKeeps(Finish(s, a, lost), EndEvent(a, lost));
  }

  lemma StartShutdownKeeps(s: State, a: AssocId)
    requires Inv(s) && a in s.assocs
    ensures Inv(StartShutdown(s, a)) && Inv(StartAbort(s, a))
  {
    assert AssocOk(s, a);
    NeutralAssoc(s, a, s.assocs[a].(shuttingDown := true));
    NeutralAbort(StartShutdown(s, a), a);
  }

  /** No invariant speaks about what sctplib was told to abort. */
  lemma NeutralAbort(s: State, a: AssocId)
    requires Inv(s)
    ensures Inv(s.(lib := s.lib.(aborted := s.lib.aborted + {a})))
  {
    var t := s.(lib := s.lib.(aborted := s.lib.aborted + {a}));
    forall b ensures AssocOk(t, b) { assert AssocOk(s, b); }
    forall b ensures IdOk(t, b) { assert IdOk(s, b); }
    forall i ensures InstanceOk(t, i) { assert InstanceOk(s, i); }
    forall i, b ensures ListOk(t, i, b) { assert ListOk(s, i, b); }
  }

  lemma StartShutdownEvolves(s: State, a: AssocId)
    requires Expired(s, a)
    ensures Evolves(s, StartShutdown(s, a))
  {
    StartBase(s, StartShutdown(s, a), a);
    SameEnds(s, StartShutdown(s, a));
  }

  lemma StartAbortEvolves(s: State, a: AssocId)
    requires Overdue(s, a)
    ensures Evolves(s, StartAbort(s, a))
  {
    StartBase(s, StartAbort(s, a), a);
    SameEnds(s, StartAbort(s, a));
  }

  lemma StartBase(s: State, t: State, a: AssocId)
    requires Expired(s, a) && t.sockets == s.sockets && t.closingAssocs == s.closingAssocs && t.closingSockets == s.closingSockets
    requires EvolvedRest(s, t) && t.assocs == s.assocs[a := s.assocs[a].(shuttingDown := true)]
    requires t.lib == s.lib.(aborted := t.lib.aborted)
    requires t.lib.aborted == s.lib.aborted || (Overdue(s, a) && t.lib.aborted == s.lib.aborted + {a})
    ensures EvolvedBase(s, t)
  {
  }

  /** Nothing ends when only shutdowns start. */
  lemma SameEnds(s: State, t: State)
    requires t.sockets == s.sockets && t.assocs.Keys == s.assocs.Keys
    requires forall a :: a in s.assocs ==> t.assocs[a] == s.assocs[a].(shuttingDown := t.assocs[a].shuttingDown)
    ensures forall i {:trigger EvolvedEnds(s, t, i)} :: EvolvedEnds(s, t, i)
  {
    forall i ensures EvolvedEnds(s, t, i) {
      assert forall a {:trigger Finished(t, a)} :: Finished(t, a) ==> Finished(s, a);
    }
  }

  /** Ending an expired association is something auto-close may do. */
  lemma MarkEndEvolves(s: State, a: AssocId, abort: bool, lost: bool)
    requires Expired(s, a) && (abort ==> Overdue(s, a))
    ensures EvolvedBase(s, MarkEnd(StartEnd(s, a, abort), a, lost))
  {
    var n := EndEvent(a, lost);
    DeliverEvolves(s, Finish(StartEnd(s, a, abort), a, lost), n);
  }

  /** `t` differs from `s` at the expired association only, and gets a notification for it. */
  lemma DeliverEvolves(s: State, t: State, n: Notification)
    requires Expired(s, n.assoc) && n.kind == AssocChange
    requires t == s.(assocs := t.assocs, lib := s.lib.(ended := s.lib.ended + {n.assoc}, aborted := t.lib.aborted))
    requires t.lib.aborted == s.lib.aborted || (Overdue(s, n.assoc) && t.lib.aborted == s.lib.aborted + {n.assoc})
    requires n.assoc in t.assocs && t.assocs == s.assocs[n.assoc := t.assocs[n.assoc]]
    requires var x, y := s.assocs[n.assoc], t.assocs[n.assoc];
             y == x.(shuttingDown := true, lost := y.lost, complete := y.complete, readReady := y.readReady)
    ensures EvolvedBase(s, Deliver(t, n))
  {
    var y := t.assocs[n.assoc];
    var d := Deliver(t, n);
    forall i ensures EvolvedSocket(s, d, i) {
      QueuedFrame(y, t.sockets[y.socket], n);
    }
    forall a ensures EvolvedAssoc(s, d, a) {
      DeliveredAssoc(s, t, n, a);
    }
    forall i, a ensures EvolvedListing(s, d, i, a) {
      QueuedFrame(y, t.sockets[y.socket], n);
    }
  }

  lemma DeliveredAssoc(s: State, t: State, n: Notification, a: AssocId)
    requires Expired(s, n.assoc) && n.kind == AssocChange && t.sockets == s.sockets
    requires n.assoc in t.assocs && t.assocs == s.assocs[n.assoc := t.assocs[n.assoc]]
    requires var x, y := s.assocs[n.assoc], t.assocs[n.assoc];
             y == x.(shuttingDown := true, lost := y.lost, complete := y.complete, readReady := y.readReady)
    ensures EvolvedAssoc(s, Deliver(t, n), a)
  {
    var y := t.assocs[n.assoc];
    NotedFrame(y, t.sockets[y.socket], n);
  }

  lemma RecheckEvolves(s: State, i: Instance, recheck: bool)
    requires Inv(s) && i in s.sockets
    ensures var t := SetSocket(s, i, s.sockets[i].(recheck := recheck));
            Inv(t) && EvolvesBut(s, t, i) && (recheck ==> Evolves(s, t))
  {
    NeutralSocket(s, i, s.sockets[i].(recheck := recheck));
    var t := SetSocket(s, i, s.sockets[i].(recheck := recheck));
    RecheckBase(s, i, recheck);
    forall j | j != i || recheck ensures EvolvedEnds(s, t, j) {
      RecheckEnds(s, i, recheck, j);
    }
  }

  lemma RecheckBase(s: State, i: Instance, recheck: bool)
    requires i in s.sockets
    ensures EvolvedBase(s, SetSocket(s, i, s.sockets[i].(recheck := recheck)))
  {
  }

  lemma RecheckEnds(s: State, i: Instance, recheck: bool, j: Instance)
    requires i in s.sockets && (j != i || recheck)
    ensures EvolvedEnds(s, SetSocket(s, i, s.sockets[i].(recheck := recheck)), j)
  {
    var t := SetSocket(s, i, s.sockets[i].(recheck := recheck));
    assert forall a {:trigger Finished(t, a)} :: Finished(t, a) ==> Finished(s, a);
  }

  /** The guard that checkAutoClose sets while it runs on a socket. */
  function Guard(s: State, i: Instance, on: bool): State
    requires i in s.sockets
  {
    SetSocket(s, i, s.sockets[i].(inAutoClose := on))
  }

  /** A guarded run is, seen from outside, something auto-close may do. */
  lemma GuardEvolves(s: State, u: State, i: Instance)
    requires Inv(s) && Inv(u) && i in s.sockets && !s.sockets[i].inAutoClose
    requires EvolvesBut(Guard(s, i, true), u, i) && Settled(u, i)
    ensures Inv(Guard(u, i, false)) && Evolves(s, Guard(u, i, false)) && Settled(Guard(u, i, false), i)
  {
    assert EvolvedSocket(Guard(s, i, true), u, i);
    NeutralSocket(u, i, Guard(u, i, false).sockets[i]);
    GuardUnseen(s, u, i);
    GuardSettled(u, i);
    GuardEnds(s, u, i);
  }

  lemma GuardUnseen(s: State, u: State, i: Instance)
    requires i in s.sockets && i in u.sockets && !s.sockets[i].inAutoClose
    requires EvolvesBut(Guard(s, i, true), u, i)
    ensures var t := Guard(u, i, false);
            && (forall a :: EvolvedAssoc(s, t, a)) && (forall a :: EvolvedId(s, t, a))
            && (forall j :: EvolvedSocket(s, t, j)) && (forall j, a :: EvolvedListing(s, t, j, a))
  {
    var s1 := Guard(s, i, true);
    var t := Guard(u, i, false);
    forall a ensures EvolvedAssoc(s, t, a) {
      assert EvolvedAssoc(s1, u, a);
      assert Expired(s1, a) == Expired(s, a) && Finished(s1, a) == Finished(s, a);
    }
    forall a ensures EvolvedId(s, t, a) { assert EvolvedId(s1, u, a); }
    forall j ensures EvolvedSocket(s, t, j) { assert EvolvedSocket(s1, u, j); }
    forall j, a ensures EvolvedListing(s, t, j, a) { assert EvolvedListing(s1, u, j, a); }
  }

  lemma GuardSettled(u: State, i: Instance)
    requires i in u.sockets && Settled(u, i)
    ensures Settled(Guard(u, i, false), i)
  {
    var t := Guard(u, i, false);
    forall a | a in t.sockets[i].connectionless ensures Handled(t, a) {
      assert Handled(u, a);
      GuardInvisible(u, i, false, a);
    }
  }

  lemma GuardInvisible(s: State, i: Instance, on: bool, a: AssocId)
    requires i in s.sockets
    ensures Expired(Guard(s, i, on), a) == Expired(s, a) && Finished(Guard(s, i, on), a) == Finished(s, a)
  {
  }

  lemma GuardEnds(s: State, u: State, i: Instance)
    requires i in s.sockets && i in u.sockets && !s.sockets[i].inAutoClose
    requires Settled(u, i) && forall j {:trigger EvolvedEnds(Guard(s, i, true), u, j)} :: j != i ==> EvolvedEnds(Guard(s, i, true), u, j)
    ensures forall j {:trigger EvolvedEnds(s, Guard(u, i, false), j)} :: EvolvedEnds(s, Guard(u, i, false), j)
  {
    var t := Guard(u, i, false);
    forall j ensures EvolvedEnds(s, t, j) {
      if j in s.sockets && j in t.sockets {
        assert j != i ==> EvolvedEnds(Guard(s, i, true), u, j);
        forall a | a in t.sockets[j].connectionless && Finished(t, a) && !(t.sockets[j].inAutoClose && t.sockets[j].recheck)
          ensures Finished(s, a)
        {
          assert j == i ==> Handled(u, a);
          GuardInvisible(u, i, false, a);
          GuardInvisible(s, i, true, a);
        }
      }
    }
  }

  /** An expired association whose end sctplib reports while its socket is being checked: it is
      closed, and the socket will be checked again. */
  lemma EndWhileChecked(s: State, i: Instance, a: AssocId, abort: bool, lost: bool)
    requires Inv(s) && Expired(s, a) && s.assocs[a].socket == i && (abort ==> Overdue(s, a))
    requires s.sockets[i].inAutoClose
    ensures var t := Recheck(MarkEnd(StartEnd(s, a, abort), a, lost), i);
            && Inv(t) && Evolves(s, t)
            && Open(t, i) < Open(s, i)
  {
    assert ListOk(s, i, a);
    var s1 := StartEnd(s, a, abort);
    var m := MarkEnd(s1, a, lost);
    StartShutdownKeeps(s, a);
    MarkEndKeeps(s1, a, lost);
    MarkEndEvolves(s, a, abort, lost);
    RecheckEvolves(m, i, true);
    var t := Recheck(m, i);
    EvolvedBaseTrans(s, m, t);
    EndsElsewhere(s, i, a, abort, lost);
    MeasuresShrink(s, t);
    RecheckedState(s, i, a, abort, lost);
    assert a in Open(s, i) && a !in Open(t, i);
  }

  /** The states differ at the association a and its socket i only. */
  ghost predicate ApartFrom(s: State, t: State, i: Instance, a: AssocId) {
    && t.assocs.Keys == s.assocs.Keys && t.sockets.Keys == s.sockets.Keys
    && (forall b :: b in s.assocs && b != a ==> t.assocs[b] == s.assocs[b])
    && (forall j :: j in s.sockets && j != i ==> t.sockets[j] == s.sockets[j])
    && i in s.sockets && t.sockets[i].connectionless == s.sockets[i].connectionless
    && t.sockets[i].inAutoClose == s.sockets[i].inAutoClose
  }

  lemma DeliverApart(s: State, n: Notification)
    requires n.assoc in s.assocs && s.assocs[n.assoc].socket in s.sockets
    ensures ApartFrom(s, Deliver(s, n), s.assocs[n.assoc].socket, n.assoc)
  {
    var x := s.assocs[n.assoc];
    NotedFrame(x, s.sockets[x.socket], n);
    QueuedFrame(x, s.sockets[x.socket], n);
  }

  lemma EndsElsewhere(s: State, i: Instance, a: AssocId, abort: bool, lost: bool)
    requires Inv(s) && a in s.assocs && s.assocs[a].socket == i && i in s.sockets && s.sockets[i].inAutoClose
    ensures var t := Recheck(MarkEnd(StartEnd(s, a, abort), a, lost), i);
            forall j {:trigger EvolvedEnds(s, t, j)} :: EvolvedEnds(s, t, j)
  {
    var t := Recheck(MarkEnd(StartEnd(s, a, abort), a, lost), i);
    var f := Finish(StartEnd(s, a, abort), a, lost);
    var m := MarkEnd(StartEnd(s, a, abort), a, lost);
    FinishApart(s, i, a, abort, lost);
    DeliverApart(f, EndEvent(a, lost));
    ApartTrans(s, f, m, i, a);
    RecheckApart(m, i, a);
    ApartTrans(s, m, t, i, a);
    EndsApart(s, t, i, a);
  }

  lemma FinishApart(s: State, i: Instance, a: AssocId, abort: bool, lost: bool)
    requires a in s.assocs && s.assocs[a].socket == i && i in s.sockets
    ensures ApartFrom(s, Finish(StartEnd(s, a, abort), a, lost), i, a)
  {
  }

  lemma RecheckApart(s: State, i: Instance, a: AssocId)
    requires i in s.sockets
    ensures ApartFrom(s, Recheck(s, i), i, a) && Recheck(s, i).sockets[i].recheck
  {
  }

  lemma ApartTrans(s: State, t: State, u: State, i: Instance, a: AssocId)
    requires ApartFrom(s, t, i, a) && ApartFrom(t, u, i, a)
    ensures ApartFrom(s, u, i, a)
  {
  }

  lemma EndsApart(s: State, t: State, i: Instance, a: AssocId)
    requires Inv(s) && ApartFrom(s, t, i, a) && a in s.assocs && s.assocs[a].socket == i
    requires s.sockets[i].inAutoClose && t.sockets[i].recheck
    ensures forall j {:trigger EvolvedEnds(s, t, j)} :: EvolvedEnds(s, t, j)
  {
    forall j ensures EvolvedEnds(s, t, j) {
      assert ListOk(s, j, a);
      OthersFinish(s, t, i, a, j);
    }
  }

  lemma OthersFinish(s: State, t: State, i: Instance, a: AssocId, j: Instance)
    requires ApartFrom(s, t, i, a) && a in s.assocs && s.assocs[a].socket == i && ListOk(s, j, a)
    requires s.sockets[i].inAutoClose && t.sockets[i].recheck
    ensures EvolvedEnds(s, t, j)
  {
    if j != i && j in s.sockets {
      forall b | b in t.sockets[j].connectionless && Finished(t, b) ensures Finished(s, b) {
        assert b != a;
      }
    }
  }

  lemma RecheckedState(s: State, i: Instance, a: AssocId, abort: bool, lost: bool)
    requires a in s.assocs && s.assocs[a].socket == i && i in s.sockets
    ensures var t := Recheck(MarkEnd(StartEnd(s, a, abort), a, lost), i);
            && t.sockets[i].recheck && t.sockets[i].connectionless == s.sockets[i].connectionless
            && t.closingAssocs == s.closingAssocs && t.closingSockets == s.closingSockets
            && a in t.assocs && t.assocs[a].complete
  {
  }

  /** Shutting an association down twice is shutting it down once. */
  lemma DoomedAlready(s: State, a: AssocId)
    requires a in s.assocs
    ensures s.assocs[a].shuttingDown ==> BeginDying(s, a) == Doomed(s, a)
    ensures StartShutdown(BeginDying(s, a), a) == Doomed(s, a)
  {
    if s.assocs[a].shuttingDown {
      assert s.assocs == s.assocs[a := s.assocs[a].(shuttingDown := true)];
    }
  }

  /** An association whose destructor runs is left alone by everything called meanwhile. */
  lemma DoomedStays(s: State, a: AssocId, u: State)
    requires Inv(s) && a in s.assocs && s.assocs[a].socket in s.sockets && Unlisted(s, a)
    requires Evolves(Doomed(s, a), u) || Evolves(Collect(Doomed(s, a), a), u)
    ensures a in u.assocs && a in u.dying && (a in u.lib.aborted <==> a in s.lib.aborted)
  {
    var d := Doomed(s, a);
    assert !Expired(d, a) && !Finished(d, a) && !Expired(Collect(d, a), a) && !Finished(Collect(d, a), a);
    if Evolves(d, u) {
      assert EvolvedAssoc(d, u, a) && EvolvedId(d, u, a);
    } else {
      assert EvolvedAssoc(Collect(d, a), u, a) && EvolvedId(Collect(d, a), u, a);
    }
  }

  /** No association of the list becomes open again, nor does a socket's check start or stop. */
  lemma MeasuresShrink(s: State, t: State)
    requires EvolvedBase(s, t)
    ensures Idle(t) == Idle(s)
    ensures forall i :: i in s.sockets && i in t.sockets ==> Open(t, i) <= Open(s, i)
  {
    forall i ensures i in Idle(s) <==> i in Idle(t) { assert EvolvedSocket(s, t, i); }
    forall i | i in s.sockets && i in t.sockets ensures Open(t, i) <= Open(s, i) {
      assert EvolvedSocket(s, t, i);
      forall a | a in Open(t, i) ensures a in Open(s, i) { assert EvolvedAssoc(s, t, a); }
    }
  }

  /** Removing a finished association is something auto-close may do. */
  lemma DestroyEvolves(s: State, i: Instance, a: AssocId)
    requires Inv(s) && Finished(s, a) && s.assocs[a].socket == i
    ensures Inv(Destroy(Detach(s, i, a), a)) && Evolves(s, Destroy(Detach(s, i, a), a))
  {
    assert ListOk(s, i, a) && AssocOk(s, a);
    DetachKeeps(s, i, a);
    DestroyKeeps(Detach(s, i, a), a);
  }

  // ---------------------------------------------------------------- what every reachable state promises

  /** Exactly-once release: at rest, every ID ever handed out is either a live object, or waits for
      the deferred collector, or has been released once; sctplib holds it in the first two cases. */
  lemma OneCustodian(s: State, a: AssocId)
    requires Inv(s) && s.dying == {} && a in s.lib.used
    ensures s.lib.released[a] <= 1 && (a in s.lib.released ==> a in s.lib.ended)
    ensures a in s.assocs ==> a in s.lib.assocs && a !in s.closingAssocs && a !in s.lib.released
    ensures a in s.closingAssocs ==> a in s.lib.assocs && a !in s.assocs && a !in s.lib.released
    ensures a !in s.assocs && a !in s.closingAssocs ==> a !in s.lib.assocs && s.lib.released[a] == 1
  {
    assert AssocOk(s, a) && IdOk(s, a);
  }

  /** An instance is unregistered at most once, and never while an association refers to it. */
  lemma InstanceOutlivesAssociations(s: State, a: AssocId, i: Instance)
    requires Inv(s) && s.dying == {}
    ensures s.lib.unregistered[i] <= 1
    ensures a in s.closingAssocs ==> s.closingAssocs[a] !in s.lib.unregistered
    ensures a in s.assocs ==> s.assocs[a].socket !in s.lib.unregistered
  {
    assert AssocOk(s, a) && IdOk(s, a) && InstanceOk(s, i);
    if a in s.closingAssocs { assert InstanceOk(s, s.closingAssocs[a]); }
    if a in s.assocs { assert InstanceOk(s, s.assocs[a].socket); }
  }

  /** The use count is exact, so it is positive while anything still needs the association. */
  lemma UseCountExact(s: State, a: AssocId)
    requires Inv(s) && a in s.assocs
    ensures s.assocs[a].socket in s.sockets
    ensures s.assocs[a].useCount == Undelivered(s, a) + s.inflight[a] + s.leaked[a]
    ensures s.assocs[a].useCount == 0 <==>
              && a !in s.inflight && a !in s.leaked && s.assocs[a].inQueue == []
              && forall k :: 0 <= k < |s.sockets[s.assocs[a].socket].queue| ==>
                   s.sockets[s.assocs[a].socket].queue[k].assoc != a
  {
    assert AssocOk(s, a);
    NamedIff(s.sockets[s.assocs[a].socket].queue, a);
  }

  /** Cached readiness agrees with recomputing it. */
  lemma ReadinessExact(s: State, a: AssocId, i: Instance)
    requires Inv(s)
    ensures a in s.assocs ==>
              var x := s.assocs[a];
              x.readReady <==> HasData(x.inQueue, x.subscribed) || x.complete || x.lost
    ensures i in s.sockets ==>
              var k := s.sockets[i];
              k.readReady <==> (k.globalQueue && HasData(k.queue, k.subscribed)) || k.requests != []
  {
    assert AssocOk(s, a) && InstanceOk(s, i);
  }

  // ---------------------------------------------------------------- deferred instances

  /** sctplib forgets an instance that no closing association needs (sctp_unregisterInstance). */
  function Unregister(s: State, i: Instance): State {
    s.(closingSockets := s.closingSockets - {i},
       lib := s.lib.(instances := s.lib.instances - {i}, unregistered := s.lib.unregistered + multiset{i}))
  }

  /** A closing association still refers to the instance. */
  predicate InstanceUsed(s: State, i: Instance) {
    exists a :: a in s.closingAssocs && s.closingAssocs[a] == i
  }

  /** Unregistering happens only when sctplib holds no association of the instance any more. */
  lemma UnregisterKeeps(s: State, i: Instance)
    requires Inv(s) && i in s.closingSockets && !InstanceUsed(s, i)
    ensures i in s.lib.instances && forall a :: a in s.lib.assocs ==> s.lib.assocs[a] != i
    ensures Inv(Unregister(s, i)) && Evolves(s, Unregister(s, i))
  {
    var t := Unregister(s, i);
    assert InstanceOk(s, i);
    forall a | a in s.lib.assocs ensures s.lib.assocs[a] != i {
      assert IdOk(s, a) && AssocOk(s, a);
    }
    forall a ensures AssocOk(t, a) { assert AssocOk(s, a); }
    forall a ensures IdOk(t, a) { assert IdOk(s, a); }
    forall j ensures InstanceOk(t, j) { assert InstanceOk(s, j); }
    forall j, a ensures ListOk(t, j, a) { assert ListOk(s, j, a); }
  }

  // ---------------------------------------------------------------- measures

  /** The associations of a socket's list that have not ended. */
  function Open(s: State, i: Instance): set<AssocId>
    requires i in s.sockets
  {
    set a | a in s.sockets[i].connectionless && a in s.assocs && !s.assocs[a].complete
  }

  /** The sockets whose auto-close check is not running. */
  function Idle(s: State): set<Instance> {
    set i | i in s.sockets && !s.sockets[i].inAutoClose
  }

  // ---------------------------------------------------------------- how a reported end is handled

  /**
    * The outcome of a communication lost or shutdown complete report: a deferred association is
    * released; a live one is marked and notified, after which its socket's check runs, or is asked
    * to run again if it is already under way.
    */
  ghost predicate EndHandled(s: State, t: State, a: AssocId, lost: bool) {
    && Inv(t)
    && if a in s.closingAssocs then Evolves(Collect(s, a), t)
       else
         && a in s.assocs && s.assocs[a].socket in s.sockets
         && var i := s.assocs[a].socket;
            var m := MarkEnd(s, a, lost);
            && Evolves(m, t)
            && (if s.sockets[i].inAutoClose then t == Recheck(m, i) else Settled(t, i))
  }

  /**
    * What a check does with one listed association: delete it if it is finished, abort it if it is
    * overdue, shut it down if it is merely expired (sctplib may report an end at once), or nothing.
    */
  ghost predicate Checked(s: State, t: State, i: Instance, a: AssocId) {
    a in s.assocs && i in s.sockets &&
    if Finished(s, a) then t == Destroy(Detach(s, i, a), a)
    else if Overdue(s, a) then t == StartAbort(s, a) || EndHandled(StartAbort(s, a), t, a, true)
    else if Expired(s, a) then
      var s1 := StartShutdown(s, a);
      t == s1 || EndHandled(s1, t, a, true) || EndHandled(s1, t, a, false)
    else t == s
  }

  // ---------------------------------------------------------------- one association of a pass

  /** What a pass may leave of its socket after one listed association, besides doing what it should. */
  ghost predicate CheckedUp(s: State, t: State, i: Instance, a: AssocId) {
    && Inv(t) && Evolves(s, t) && i in s.sockets && i in t.sockets
    && t.closingAssocs == s.closingAssocs && t.closingSockets == s.closingSockets
    && (t.sockets[i].connectionless == s.sockets[i].connectionless
        || t.sockets[i].connectionless == s.sockets[i].connectionless - {a})
    && (s.sockets[i].recheck ==> t.sockets[i].recheck)
    && (t.sockets[i].recheck && !s.sockets[i].recheck ==> Open(t, i) < Open(s, i))
    && (!t.sockets[i].recheck && a in t.sockets[i].connectionless ==> Handled(t, a))
    && Checked(s, t, i, a)
  }

  lemma UntouchedCheckedUp(s: State, i: Instance, a: AssocId)
    requires Inv(s) && i in s.sockets && a in s.sockets[i].connectionless && !Finished(s, a) && !Expired(s, a)
    ensures CheckedUp(s, s, i, a)
  {
    assert ListOk(s, i, a);
    EvolvesRefl(s);
  }

  lemma FinishedCheckedUp(s: State, i: Instance, a: AssocId)
    requires Inv(s) && i in s.sockets && a in s.sockets[i].connectionless && Finished(s, a)
    ensures CheckedUp(s, Destroy(Detach(s, i, a), a), i, a)
  {
    assert ListOk(s, i, a);
    DestroyEvolves(s, i, a);
  }

  lemma StartedCheckedUp(s: State, i: Instance, a: AssocId, abort: bool)
    requires Inv(s) && i in s.sockets && a in s.sockets[i].connectionless && Expired(s, a) && (abort <==> Overdue(s, a))
    ensures CheckedUp(s, StartEnd(s, a, abort), i, a)
  {
    assert ListOk(s, i, a);
    StartShutdownKeeps(s, a);
    if abort {
      StartAbortEvolves(s, a);
    } else {
      StartShutdownEvolves(s, a);
    }
  }

  lemma EndedCheckedUp(s: State, t: State, i: Instance, a: AssocId, abort: bool, lost: bool)
    requires Inv(s) && i in s.sockets && a in s.sockets[i].connectionless && Expired(s, a) && (abort <==> Overdue(s, a))
    requires s.sockets[i].inAutoClose && EndHandled(StartEnd(s, a, abort), t, a, lost) && (abort ==> lost)
    ensures CheckedUp(s, t, i, a)
  {
    assert ListOk(s, i, a) && AssocOk(s, a);
    assert t == Recheck(MarkEnd(StartEnd(s, a, abort), a, lost), i);
    assert Inv(t) && Evolves(s, t) && Open(t, i) < Open(s, i) by {
      EndWhileChecked(s, i, a, abort, lost);
    }
    RecheckedState(s, i, a, abort, lost);
  }

  // ---------------------------------------------------------------- a pass, and the passes of a check

  /** A pass that began in state s, with some associations still to be looked at. */
  ghost predicate Swept(s: State, t: State, i: Instance, todo: set<AssocId>) {
    && Inv(t) && Evolves(s, t) && i in s.sockets && i in t.sockets && t.sockets[i].inAutoClose
    && t.closingAssocs == s.closingAssocs && t.closingSockets == s.closingSockets
    && todo <= t.sockets[i].connectionless
    && (!t.sockets[i].recheck ==> SettledBut(t, i, todo))
    && (t.sockets[i].recheck ==> Open(t, i) < Open(s, i))
  }

  lemma SweepBegins(s: State, i: Instance)
    requires Inv(s) && i in s.sockets && s.sockets[i].inAutoClose && !s.sockets[i].recheck
    ensures Swept(s, s, i, s.sockets[i].connectionless)
  {
    EvolvesRefl(s);
  }

  lemma SweepStep(s: State, t: State, u: State, i: Instance, todo: set<AssocId>, a: AssocId)
    requires Inv(s) && Swept(s, t, i, todo) && a in todo && CheckedUp(t, u, i, a)
    ensures Swept(s, u, i, todo - {a})
  {
    MeasuresShrink(s, t);
    MeasuresShrink(t, u);
    assert EvolvedSocket(t, u, i);
    if !u.sockets[i].recheck {
      SettledStays(t, u, i, todo);
    }
    EvolvesTrans(s, t, u);
  }

  /** The passes of a check that began, guarded, in state s. */
  ghost predicate Rounds(s: State, t: State, i: Instance, again: bool) {
    && Inv(t) && EvolvesBut(s, t, i) && i in s.sockets && i in t.sockets && t.sockets[i].inAutoClose
    && t.closingAssocs == s.closingAssocs && t.closingSockets == s.closingSockets
    && (!again ==> Settled(t, i))
  }

  lemma RoundBegins(s: State, t: State, i: Instance)
    requires Inv(s) && Rounds(s, t, i, true)
    ensures var t1 := SetSocket(t, i, t.sockets[i].(recheck := false));
            Inv(t1) && Rounds(s, t1, i, true) && Idle(t1) == Idle(s) && Open(t1, i) == Open(t, i)
  {
    RecheckEvolves(t, i, false);
    var t1 := SetSocket(t, i, t.sockets[i].(recheck := false));
    EvolvesButTrans(s, t, t1, i);
    MeasuresShrink(s, t1);
  }

  lemma RoundEnds(s: State, t: State, u: State, i: Instance)
    requires Inv(s) && Rounds(s, t, i, true) && Swept(t, u, i, {})
    ensures Rounds(s, u, i, u.sockets[i].recheck) && Open(u, i) <= Open(t, i)
    ensures u.sockets[i].recheck ==> Open(u, i) < Open(t, i)
  {
    EvolvesButTrans(s, t, u, i);
    MeasuresShrink(t, u);
  }
}
