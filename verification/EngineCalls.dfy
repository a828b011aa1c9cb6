/** What the application's calls and the remaining callbacks do to the engine's state. */
module EngineCalls {
  import opened Basics
  import opened Notifications
  import opened EngineState
  import opened EngineEvolution
  import Delivery

  // ---------------------------------------------------------------- new objects

  /** sctp_registerInstance and SCTPSocket::bind. */
  function Bind(s: State, i: Instance, k: Socket): State {
    s.(sockets := s.sockets[i := k],
       lib := s.lib.(instances := s.lib.instances + {i}, usedInstances := s.lib.usedInstances + {i}))
  }

  function NewSocket(globalQueue: bool, autoConnect: bool, autoCloseTimeout: nat, subscribed: Subscription): Socket {
    Socket(globalQueue, autoConnect, false, autoCloseTimeout, subscribed, [], [], {}, false, false, false)
  }

  /** The constructor of SCTPAssociation, for an ID sctplib has just handed out. */
  function Create(s: State, i: Instance, a: AssocId, up: bool): State
    requires i in s.sockets
  {
    var x := Association(i, up, false, false, false, false, 0, s.clock, s.sockets[i].subscribed, [], false);
    s.(assocs := s.assocs[a := x],
       lib := s.lib.(assocs := s.lib.assocs[a := i], used := s.lib.used + {a}))
  }

  /** A call takes a use of an association, and gives it back. */
  function Hold(s: State, a: AssocId): State
    requires a in s.assocs
  {
    SetAssoc(s, a, s.assocs[a].(useCount := s.assocs[a].useCount + 1)).(inflight := s.inflight + multiset{a})
  }

  function LetGo(s: State, a: AssocId, lastUsage: nat): State
    requires a in s.assocs && s.assocs[a].useCount > 0
  {
    SetAssoc(s, a, s.assocs[a].(useCount := s.assocs[a].useCount - 1, lastUsage := lastUsage))
      .(inflight := s.inflight - multiset{a})
  }

  /** A use that is taken and never given back. */
  function Leak(s: State, a: AssocId): State
    requires a in s.assocs
  {
    SetAssoc(s, a, s.assocs[a].(useCount := s.assocs[a].useCount + 1)).(leaked := s.leaked + multiset{a})
  }

  function Attach(s: State, i: Instance, a: AssocId): State
    requires i in s.sockets
  {
    SetSocket(s, i, s.sockets[i].(connectionless := s.sockets[i].connectionless + {a}))
  }

  /** An incoming association waits to be accepted. */
  function Request(s: State, i: Instance, a: AssocId): State
    requires i in s.sockets
  {
    SetSocket(s, i, s.sockets[i].(requests := s.sockets[i].requests + [a], readReady := true))
  }

  /** The oldest waiting association is accepted. */
  function Accepted(s: State, i: Instance): State
    requires i in s.sockets && s.sockets[i].requests != []
  {
    var k := s.sockets[i].(requests := s.sockets[i].requests[1..]);
    SetSocket(s, i, k.(readReady := SocketHasData(k) || k.requests != []))
  }

  function PeelOff(s: State, i: Instance, a: AssocId): State
    requires i in s.sockets && a in s.assocs
  {
    Detach(SetAssoc(s, a, s.assocs[a].(peeledOff := true)), i, a)
  }

  lemma BindKeeps(s: State, i: Instance, k: Socket)
    requires Inv(s) && i !in s.lib.usedInstances
    requires k.queue == [] && k.requests == [] && k.connectionless == {} && !k.readReady
    ensures Inv(Bind(s, i, k))
  {
    var t := Bind(s, i, k);
    assert InstanceOk(s, i);
    forall a ensures AssocOk(t, a) { assert AssocOk(s, a); }
    forall a ensures IdOk(t, a) { assert IdOk(s, a); }
    forall j ensures InstanceOk(t, j) { assert InstanceOk(s, j); }
    forall j, a ensures ListOk(t, j, a) { assert ListOk(s, j, a); }
  }

  lemma CreateKeeps(s: State, i: Instance, a: AssocId, up: bool)
    requires Inv(s) && i in s.sockets && a != 0 && a !in s.lib.used
    ensures Inv(Create(s, i, a, up)) && Unlisted(Create(s, i, a, up), a)
  {
    var t := Create(s, i, a, up);
    assert AssocOk(s, a) && IdOk(s, a) && ListOk(s, i, a) && InstanceOk(s, i);
    CreateObjects(s, i, a, up);
    forall j ensures InstanceOk(t, j) { assert InstanceOk(s, j); }
    forall j, b ensures ListOk(t, j, b) { assert ListOk(s, j, b); }
  }

  lemma CreateObjects(s: State, i: Instance, a: AssocId, up: bool)
    requires Inv(s) && i in s.sockets && a != 0 && a !in s.lib.used
    ensures forall b {:trigger AssocOk(Create(s, i, a, up), b)} :: AssocOk(Create(s, i, a, up), b)
    ensures forall b {:trigger IdOk(Create(s, i, a, up), b)} :: IdOk(Create(s, i, a, up), b)
  {
    var t := Create(s, i, a, up);
    assert AssocOk(s, a) && IdOk(s, a) && ListOk(s, i, a) && InstanceOk(s, i);
    forall b ensures AssocOk(t, b) { assert AssocOk(s, b); }
    forall b ensures IdOk(t, b) { assert IdOk(s, b); }
  }

  lemma HoldKeeps(s: State, a: AssocId)
    requires Inv(s) && a in s.assocs
    ensures Inv(Hold(s, a))
  {
    var t := Hold(s, a);
    assert AssocOk(s, a);
    forall b ensures AssocOk(t, b) { assert AssocOk(s, b); }
    forall b ensures IdOk(t, b) { assert IdOk(s, b); }
    forall j ensures InstanceOk(t, j) { assert InstanceOk(s, j); }
    forall j, b ensures ListOk(t, j, b) { assert ListOk(s, j, b); }
  }

  lemma LeakKeeps(s: State, a: AssocId)
    requires Inv(s) && a in s.assocs
    ensures Inv(Leak(s, a))
  {
    var t := Leak(s, a);
    assert AssocOk(s, a);
    forall b ensures AssocOk(t, b) { LeakAssoc(s, a, b); }
    forall b ensures IdOk(t, b) { assert IdOk(s, b); }
    forall j ensures InstanceOk(t, j) { assert InstanceOk(s, j); }
    forall j, b ensures ListOk(t, j, b) { assert ListOk(s, j, b); }
  }

  lemma LeakAssoc(s: State, a: AssocId, b: AssocId)
    requires Inv(s) && a in s.assocs
    ensures AssocOk(Leak(s, a), b)
  {
    assert AssocOk(s, b);
  }

  /** A call in flight can always give its use back: the count is never too low. */
  lemma LetGoKeeps(s: State, a: AssocId, lastUsage: nat)
    requires Inv(s) && a in s.assocs && a in s.inflight && lastUsage <= s.clock
    ensures s.assocs[a].useCount > 0
    ensures Inv(LetGo(s, a, lastUsage))
  {
    assert AssocOk(s, a);
    var t := LetGo(s, a, lastUsage);
    forall b ensures AssocOk(t, b) { assert AssocOk(s, b); }
    forall b ensures IdOk(t, b) { assert IdOk(s, b); }
    forall j ensures InstanceOk(t, j) { assert InstanceOk(s, j); }
    forall j, b ensures ListOk(t, j, b) { assert ListOk(s, j, b); }
  }

  lemma AttachKeeps(s: State, i: Instance, a: AssocId)
    requires Inv(s) && i in s.sockets && a in s.assocs && s.assocs[a].socket == i
    requires a !in s.dying && !s.assocs[a].peeledOff && a !in s.sockets[i].requests
    ensures Inv(Attach(s, i, a))
  {
    var t := Attach(s, i, a);
    forall b ensures AssocOk(t, b) { assert AssocOk(s, b); }
    forall b ensures IdOk(t, b) { assert IdOk(s, b); }
    forall j ensures InstanceOk(t, j) { assert InstanceOk(s, j); }
    forall j, b ensures ListOk(t, j, b) { assert ListOk(s, j, b); }
  }

  lemma RequestKeeps(s: State, i: Instance, a: AssocId)
    requires Inv(s) && i in s.sockets && a in s.assocs && s.assocs[a].socket == i
    requires a !in s.dying && !s.assocs[a].peeledOff && Unlisted(s, a)
    ensures Inv(Request(s, i, a))
  {
    var t := Request(s, i, a);
    forall b ensures AssocOk(t, b) { assert AssocOk(s, b); }
    forall b ensures IdOk(t, b) { assert IdOk(s, b); }
    forall j ensures InstanceOk(t, j) { assert InstanceOk(s, j); }
    forall j, b ensures ListOk(t, j, b) { assert ListOk(s, j, b); }
  }

  lemma AcceptedKeeps(s: State, i: Instance)
    requires Inv(s) && i in s.sockets && s.sockets[i].requests != []
    ensures var a := s.sockets[i].requests[0];
            && Inv(Accepted(s, i))
            && a in s.assocs && s.assocs[a].socket == i && a !in s.dying && !s.assocs[a].peeledOff
            && Unlisted(Accepted(s, i), a)
  {
    OldestRequest(s, i);
    var t := Accepted(s, i);
    FewerRequests(s.sockets[i].requests);
    forall b ensures AssocOk(t, b) { assert AssocOk(s, b); }
    forall b ensures IdOk(t, b) { assert IdOk(s, b); }
    forall j ensures InstanceOk(t, j) { assert InstanceOk(s, j); }
    forall j, b ensures ListOk(t, j, b) { assert ListOk(s, j, b); }
  }

  lemma FewerRequests(q: seq<AssocId>)
    requires q != []
    ensures forall b :: multiset(q[1..])[b] <= multiset(q)[b] && (b in q[1..] ==> b in q)
    ensures multiset(q)[q[0]] == multiset(q[1..])[q[0]] + 1
  {
    assert q == [q[0]] + q[1..];
    assert multiset(q) == multiset{q[0]} + multiset(q[1..]);
  }

  /** The oldest request is a live association that waits once. */
  lemma OldestRequest(s: State, i: Instance)
    requires Inv(s) && i in s.sockets && s.sockets[i].requests != []
    ensures var a := s.sockets[i].requests[0];
            && a in s.assocs && s.assocs[a].socket == i && a !in s.dying && !s.assocs[a].peeledOff
            && Unlisted(Accepted(s, i), a)
  {
    var q := s.sockets[i].requests;
    assert ListOk(s, i, q[0]);
    FewerRequests(q);
    assert q[0] in q;
  }

  /** Peeling an association off keeps its use count in step: notifications already in the global
      queue still count. */
  lemma PeelOffKeeps(s: State, i: Instance, a: AssocId)
    requires Inv(s) && i in s.sockets && a in s.sockets[i].connectionless
    ensures a in s.assocs && s.assocs[a].socket == i
    ensures Inv(PeelOff(s, i, a)) && Unlisted(PeelOff(s, i, a), a)
  {
    assert ListOk(s, i, a);
    var t := PeelOff(s, i, a);
    forall b ensures AssocOk(t, b) { PeelOffAssoc(s, i, a, b); }
    forall b ensures IdOk(t, b) { assert IdOk(s, b); }
    forall j ensures InstanceOk(t, j) { assert InstanceOk(s, j); }
    forall j, b ensures ListOk(t, j, b) { assert ListOk(s, j, b); }
  }

  lemma PeelOffAssoc(s: State, i: Instance, a: AssocId, b: AssocId)
    requires Inv(s) && i in s.sockets && a in s.assocs && s.assocs[a].socket == i
    ensures AssocOk(PeelOff(s, i, a), b)
  {
    assert AssocOk(s, b);
  }

  // ---------------------------------------------------------------- receiving

  /** SCTPSocket::getErrorCode. */
  function ErrorCode(s: State, i: Instance, a: AssocId): int {
    if a in s.assocs && s.assocs[a].socket == i then
      if s.assocs[a].complete then -Delivery.ECONNRESET
      else if s.assocs[a].lost then -Delivery.ECONNABORTED
      else 0
    else 0
  }

  /** A record was dropped and the association is accounted for it. */
  function Charged(x: Association, now: nat): Association {
    x.(useCount := if x.useCount > 0 then x.useCount - 1 else 0,
       lastUsage := now,
       readReady := HasData(x.inQueue, x.subscribed) || x.complete || x.lost)
  }

  /** The head of a socket's global queue is dropped.  An empty data record leaves the caller's
      association ID 0 in place, so nobody is accounted for it and a use is leaked. */
  function DropGlobal(s: State, i: Instance): State
    requires i in s.sockets && s.sockets[i].queue != []
  {
    var n := s.sockets[i].queue[0];
    var a := n.assoc;
    var k := s.sockets[i].(queue := s.sockets[i].queue[1..]);
    var live := a in s.assocs && s.assocs[a].socket == i;
    var named := Delivery.Accounted(n, 0) == a;
    s.(sockets := s.sockets[i := k.(readReady := SocketHasData(k) || k.requests != [])],
       assocs := if live && named then s.assocs[a := Charged(s.assocs[a], s.clock)] else s.assocs,
       leaked := if live && !named then s.leaked + multiset{a} else s.leaked)
  }

  /** The head of an association's own queue is dropped. */
  function DropOwn(s: State, a: AssocId): State
    requires a in s.assocs && s.assocs[a].inQueue != []
  {
    var x := s.assocs[a].(inQueue := s.assocs[a].inQueue[1..]);
    SetAssoc(s, a, Charged(x, s.clock))
  }

  function UpdateGlobal(s: State, i: Instance, n: Notification): State
    requires i in s.sockets && s.sockets[i].queue != []
  {
    SetSocket(s, i, s.sockets[i].(queue := s.sockets[i].queue[0 := n]))
  }

  function UpdateOwn(s: State, a: AssocId, n: Notification): State
    requires a in s.assocs && s.assocs[a].inQueue != []
  {
    SetAssoc(s, a, s.assocs[a].(inQueue := s.assocs[a].inQueue[0 := n]))
  }

  lemma SameData(q: seq<Notification>, n: Notification, subscribed: Subscription)
    requires q != [] && n.kind == q[0].kind
    ensures HasData(q[0 := n], subscribed) == HasData(q, subscribed)
  {
    assert forall i :: 0 <= i < |q| ==> q[0 := n][i].kind == q[i].kind;
    if HasData(q, subscribed) {
      var i :| 0 <= i < |q| && Wanted(q[i].kind, subscribed);
      assert Wanted(q[0 := n][i].kind, subscribed);
    }
  }

  lemma UpdateGlobalKeeps(s: State, i: Instance, n: Notification)
    requires Inv(s) && i in s.sockets && s.sockets[i].queue != []
    requires n.kind == s.sockets[i].queue[0].kind && n.assoc == s.sockets[i].queue[0].assoc
    ensures Inv(UpdateGlobal(s, i, n))
  {
    var t := UpdateGlobal(s, i, n);
    NamedUpdateHead(s.sockets[i].queue, n);
    SameData(s.sockets[i].queue, n, s.sockets[i].subscribed);
    forall b ensures AssocOk(t, b) { assert AssocOk(s, b); }
    forall b ensures IdOk(t, b) { assert IdOk(s, b); }
    forall j ensures InstanceOk(t, j) { assert InstanceOk(s, j); }
    forall j, b ensures ListOk(t, j, b) { assert ListOk(s, j, b); }
  }

  lemma UpdateOwnKeeps(s: State, a: AssocId, n: Notification)
    requires Inv(s) && a in s.assocs && s.assocs[a].inQueue != []
    requires n.kind == s.assocs[a].inQueue[0].kind && n.assoc == a
    ensures Inv(UpdateOwn(s, a, n))
  {
    var t := UpdateOwn(s, a, n);
    SameData(s.assocs[a].inQueue, n, s.assocs[a].subscribed);
    assert AssocOk(s, a);
    forall b ensures AssocOk(t, b) { assert AssocOk(s, b); }
    forall b ensures IdOk(t, b) { assert IdOk(s, b); }
    forall j ensures InstanceOk(t, j) { assert InstanceOk(s, j); }
    forall j, b ensures ListOk(t, j, b) { assert ListOk(s, j, b); }
  }

  lemma DropGlobalOwner(s: State, i: Instance)
    requires i in s.sockets && s.sockets[i].queue != [] && AssocOk(s, s.sockets[i].queue[0].assoc)
    ensures AssocOk(DropGlobal(s, i), s.sockets[i].queue[0].assoc)
  {
    var n := s.sockets[i].queue[0];
    if n.assoc in s.assocs {
      if s.assocs[n.assoc].socket != i {
        DropGlobalForeign(s, i);
      } else if Delivery.Accounted(n, 0) == n.assoc {
        DropGlobalCharged(s, i);
      } else {
        DropGlobalLeaked(s, i);
      }
    }
  }

  /** The record names an association of another socket ... */
  lemma DropGlobalForeign(s: State, i: Instance)
    requires i in s.sockets && s.sockets[i].queue != []
    requires var a := s.sockets[i].queue[0].assoc; AssocOk(s, a) && a in s.assocs && s.assocs[a].socket != i
    ensures AssocOk(DropGlobal(s, i), s.sockets[i].queue[0].assoc)
  {
  }

  /** ... or one of this socket, which is accounted for it ... */
  lemma DropGlobalCharged(s: State, i: Instance)
    requires i in s.sockets && s.sockets[i].queue != []
    requires var n := s.sockets[i].queue[0];
             AssocOk(s, n.assoc) && n.assoc in s.assocs && s.assocs[n.assoc].socket == i && Delivery.Accounted(n, 0) == n.assoc
    ensures AssocOk(DropGlobal(s, i), s.sockets[i].queue[0].assoc)
  {
    NamedDrop(s.sockets[i].queue);
  }

  /** ... or leaks a use. */
  lemma DropGlobalLeaked(s: State, i: Instance)
    requires i in s.sockets && s.sockets[i].queue != []
    requires var n := s.sockets[i].queue[0];
             AssocOk(s, n.assoc) && n.assoc in s.assocs && s.assocs[n.assoc].socket == i && Delivery.Accounted(n, 0) != n.assoc
    ensures AssocOk(DropGlobal(s, i), s.sockets[i].queue[0].assoc)
  {
    NamedDrop(s.sockets[i].queue);
  }

  lemma DropGlobalOther(s: State, i: Instance, b: AssocId)
    requires i in s.sockets && s.sockets[i].queue != [] && AssocOk(s, b)
    requires b != s.sockets[i].queue[0].assoc
    ensures AssocOk(DropGlobal(s, i), b)
  {
    NamedDrop(s.sockets[i].queue);
  }

  lemma DropGlobalId(s: State, i: Instance, b: AssocId)
    requires i in s.sockets && s.sockets[i].queue != [] && IdOk(s, b) && AssocOk(s, s.sockets[i].queue[0].assoc)
    ensures IdOk(DropGlobal(s, i), b)
  {
  }

  lemma DropGlobalInstance(s: State, i: Instance, j: Instance)
    requires i in s.sockets && s.sockets[i].queue != [] && InstanceOk(s, j)
    ensures InstanceOk(DropGlobal(s, i), j)
  {
  }

  lemma DropGlobalList(s: State, i: Instance, j: Instance, b: AssocId)
    requires i in s.sockets && s.sockets[i].queue != [] && ListOk(s, j, b)
    ensures ListOk(DropGlobal(s, i), j, b)
  {
    NamedDrop(s.sockets[i].queue);
  }

  /** Dropping a record never finds the use count at zero: the check before the decrement cannot fail. */
  lemma DropGlobalKeeps(s: State, i: Instance)
    requires Inv(s) && i in s.sockets && s.sockets[i].queue != []
    ensures Inv(DropGlobal(s, i))
    ensures var a := s.sockets[i].queue[0].assoc;
            a in s.assocs && s.assocs[a].socket == i ==> s.assocs[a].useCount > 0
  {
    var t := DropGlobal(s, i);
    var a := s.sockets[i].queue[0].assoc;
    assert AssocOk(s, a) && ListOk(s, i, a);
    DropGlobalCounted(s, i);
    forall b ensures AssocOk(t, b) {
      assert AssocOk(s, b);
      if a == b { DropGlobalOwner(s, i); } else { DropGlobalOther(s, i, b); }
    }
    forall b ensures IdOk(t, b) { assert IdOk(s, b); DropGlobalId(s, i, b); }
    forall j ensures InstanceOk(t, j) { assert InstanceOk(s, j); DropGlobalInstance(s, i, j); }
    forall j, b ensures ListOk(t, j, b) { assert ListOk(s, j, b); DropGlobalList(s, i, j, b); }
  }

  lemma DropGlobalCounted(s: State, i: Instance)
    requires i in s.sockets && s.sockets[i].queue != [] && AssocOk(s, s.sockets[i].queue[0].assoc)
    ensures var a := s.sockets[i].queue[0].assoc;
            a in s.assocs && s.assocs[a].socket == i ==> s.assocs[a].useCount > 0
  {
    NamedDrop(s.sockets[i].queue);
  }

  lemma DropOwnKeeps(s: State, a: AssocId)
    requires Inv(s) && a in s.assocs && s.assocs[a].inQueue != []
    ensures s.assocs[a].useCount > 0 && s.assocs[a].inQueue[0].assoc == a
    ensures Inv(DropOwn(s, a))
  {
    var t := DropOwn(s, a);
    assert AssocOk(s, a);
    forall b ensures AssocOk(t, b) { assert AssocOk(s, b); }
    forall b ensures IdOk(t, b) { assert IdOk(s, b); }
    forall j ensures InstanceOk(t, j) { assert InstanceOk(s, j); }
    forall j, b ensures ListOk(t, j, b) { assert ListOk(s, j, b); }
  }

  // ---------------------------------------------------------------- communication up

  /** An association of ours is established. */
  function Established(s: State, a: AssocId, outStreams: nat, inStreams: nat): State
    requires a in s.assocs && s.assocs[a].socket in s.sockets
  {
    Deliver(SetAssoc(s, a, s.assocs[a].(up := true)), AssocChangeEvent(a, SCTP_COMM_UP, outStreams, inStreams))
  }

  /** A peer's association comes in on a listening socket. */
  function Incoming(s: State, i: Instance, a: AssocId, outStreams: nat, inStreams: nat): State
    requires i in s.sockets
  {
    Deliver(Request(Create(s, i, a, true), i, a), AssocChangeEvent(a, SCTP_COMM_UP, outStreams, inStreams))
  }

  /** A peer's association is unwanted: aborted and released at once. */
  function Rejected(s: State, a: AssocId): State {
    s.(lib := s.lib.(used := s.lib.used + {a}, ended := s.lib.ended + {a}, aborted := s.lib.aborted + {a},
                     released := s.lib.released + multiset{a}))
  }

  lemma EstablishedKeeps(s: State, a: AssocId, outStreams: nat, inStreams: nat)
    requires Inv(s) && a in s.assocs && s.assocs[a].socket in s.sockets
    ensures Inv(Established(s, a, outStreams, inStreams))
  {
    assert AssocOk(s, a);
    var t := SetAssoc(s, a, s.assocs[a].(up := true));
    NeutralAssoc(s, a, s.assocs[a].(up := true));
    DeliverKeeps(t, AssocChangeEvent(a, SCTP_COMM_UP, outStreams, inStreams));
  }

  lemma IncomingKeeps(s: State, i: Instance, a: AssocId, outStreams: nat, inStreams: nat)
    requires Inv(s) && i in s.sockets && a != 0 && a !in s.lib.used
    ensures Inv(Incoming(s, i, a, outStreams, inStreams))
  {
    CreateKeeps(s, i, a, true);
    var t := Create(s, i, a, true);
    assert IdOk(s, a) && AssocOk(s, a);
    RequestKeeps(t, i, a);
    DeliverKeeps(Request(t, i, a), AssocChangeEvent(a, SCTP_COMM_UP, outStreams, inStreams));
  }

  lemma IncomingWaits(s: State, i: Instance, a: AssocId, outStreams: nat, inStreams: nat)
    requires i in s.sockets
    ensures var t := Incoming(s, i, a, outStreams, inStreams);
            && a in t.assocs && t.assocs[a].socket == i && !t.assocs[a].complete && !t.assocs[a].shuttingDown
            && i in t.sockets && t.sockets[i].requests == s.sockets[i].requests + [a]
            && t.sockets[i].autoConnect == s.sockets[i].autoConnect && t.sockets[i].listening == s.sockets[i].listening
  {
  }

  lemma RejectedKeeps(s: State, a: AssocId)
    requires Inv(s) && a !in s.lib.used
    ensures Inv(Rejected(s, a))
  {
    var t := Rejected(s, a);
    assert AssocOk(s, a) && IdOk(s, a);
    forall b ensures AssocOk(t, b) { assert AssocOk(s, b); }
    forall b ensures IdOk(t, b) { assert IdOk(s, b); }
    forall j ensures InstanceOk(t, j) { assert InstanceOk(s, j); }
    forall j, b ensures ListOk(t, j, b) { assert ListOk(s, j, b); }
  }

  /** Whatever auto-closing does then, the association is gone, aborted and released once. */
  lemma RejectedIsReleased(s: State, t: State, a: AssocId)
    requires Inv(s) && Inv(t) && a !in s.lib.used && Evolves(Rejected(s, a), t)
    ensures a !in t.assocs && a in t.lib.aborted && a !in t.lib.assocs && t.lib.released[a] == 1
  {
    var r := Rejected(s, a);
    assert AssocOk(s, a) && IdOk(s, a) && EvolvedId(r, t, a) && EvolvedAssoc(r, t, a) && IdOk(t, a);
  }

  // ---------------------------------------------------------------- closing a socket

  /** The associations of a socket that are not on its connectionless list: accepted, peeled off or
      still waiting to be accepted. */
  function Strays(s: State, i: Instance): set<AssocId>
    requires i in s.sockets
  {
    set a | a in s.assocs && s.assocs[a].socket == i && a !in s.sockets[i].connectionless
  }

  /** The socket leaves the list and its instance waits to be unregistered. */
  function RemoveSocket(s: State, i: Instance): State {
    s.(sockets := s.sockets - {i}, closingSockets := s.closingSockets + {i})
  }

  lemma RemoveSocketKeeps(s: State, i: Instance)
    requires Inv(s) && i in s.sockets
    requires forall a :: a in s.assocs ==> s.assocs[a].socket != i
    ensures Inv(RemoveSocket(s, i))
  {
    var t := RemoveSocket(s, i);
    assert InstanceOk(s, i);
    forall b ensures AssocOk(t, b) { assert AssocOk(s, b); }
    forall b ensures IdOk(t, b) { assert IdOk(s, b); }
    forall j ensures InstanceOk(t, j) { assert InstanceOk(s, j); }
    forall j, b ensures ListOk(t, j, b) { assert ListOk(s, j, b); }
  }

  /** Auto-close never touches strays. */
  lemma StraysStay(s: State, t: State, i: Instance)
    requires Evolves(s, t) && i in s.sockets
    ensures i in t.sockets && Strays(t, i) == Strays(s, i)
    ensures t.sockets[i].connectionless <= s.sockets[i].connectionless
    ensures t.sockets[i].inAutoClose == s.sockets[i].inAutoClose && t.sockets[i].requests == s.sockets[i].requests
  {
    assert EvolvedSocket(s, t, i);
    forall a ensures a in Strays(t, i) <==> a in Strays(s, i) {
      assert EvolvedAssoc(s, t, a) && EvolvedListing(s, t, i, a);
    }
  }

  /** Seen from a socket, only connectionless associations may be gone. */
  ghost predicate SameStrays(s: State, t: State, i: Instance) {
    && i in s.sockets && i in t.sockets
    && Strays(t, i) == Strays(s, i)
    && t.sockets[i].connectionless <= s.sockets[i].connectionless
    && t.sockets[i].requests == s.sockets[i].requests
    && t.sockets[i].inAutoClose == s.sockets[i].inAutoClose
  }

  lemma SameStraysIf(s: State, t: State, i: Instance)
    requires i in s.sockets && i in t.sockets && t.assocs.Keys == s.assocs.Keys
    requires forall a :: a in s.assocs ==> t.assocs[a].socket == s.assocs[a].socket
    requires t.sockets[i] == s.sockets[i].(queue := t.sockets[i].queue, readReady := t.sockets[i].readReady)
    ensures SameStrays(s, t, i)
  {
  }

  lemma DeliverSame(s: State, n: Notification, i: Instance)
    requires n.assoc in s.assocs && s.assocs[n.assoc].socket in s.sockets && i in s.sockets
    ensures SameStrays(s, Deliver(s, n), i)
  {
    var x := s.assocs[n.assoc];
    NotedFrame(x, s.sockets[x.socket], n);
    QueuedFrame(x, s.sockets[x.socket], n);
    SameStraysIf(s, Deliver(s, n), i);
  }

  lemma MarkEndSame(s: State, a: AssocId, lost: bool, i: Instance)
    requires a in s.assocs && s.assocs[a].socket in s.sockets && i in s.sockets
    ensures SameStrays(s, MarkEnd(s, a, lost), i)
  {
    var f := Finish(s, a, lost);
    SameStraysIf(s, f, i);
    DeliverSame(f, EndEvent(a, lost), i);
  }

  /** An association of the socket that may be put on its connectionless list. */
  ghost predicate Acceptable(s: State, i: Instance, a: AssocId) {
    && i in s.sockets && a in s.assocs && s.assocs[a].socket == i
    && !s.assocs[a].peeledOff && a !in s.dying && a !in s.sockets[i].requests
  }

  /** The associations of a list of requests. */
  function Elements(q: seq<AssocId>): set<AssocId> {
    if q == [] then {} else {q[0]} + Elements(q[1..])
  }

  /** Of the socket `k0`, some requests have been accepted: `a` (if not 0) and those listed before. */
  ghost predicate Listing(k0: Socket, k: Socket, a: AssocId) {
    && k == k0.(requests := k.requests, connectionless := k.connectionless, readReady := k.readReady)
    && k.connectionless + (if a != 0 then {a} else {}) + Elements(k.requests) == k0.connectionless + Elements(k0.requests)
  }

  lemma FirstListed(k0: Socket, k: Socket, a: AssocId)
    requires if k0.requests == [] then a == 0 && k == k0
             else a != 0 && a == k0.requests[0] && k == k0.(requests := k0.requests[1..], readReady := k.readReady)
    ensures Listing(k0, k, a)
  {
  }

  lemma ListingStep(k0: Socket, k: Socket, a: AssocId, k': Socket, next: AssocId)
    requires Listing(k0, k, a) && a != 0
    requires k' == k.(requests := k'.requests, readReady := k'.readReady, connectionless := k.connectionless + {a})
    requires if k.requests == [] then next == 0 && k'.requests == []
             else next != 0 && next == k.requests[0] && k'.requests == k.requests[1..]
    ensures Listing(k0, k', next)
  {
  }

  lemma EndedSame(s: State, t: State, a: AssocId, lost: bool, i: Instance)
    requires EndHandled(s, t, a, lost) && a !in s.closingAssocs && i in s.sockets
    ensures SameStrays(s, t, i)
  {
    MarkEndSame(s, a, lost, i);
    StraysStay(MarkEnd(s, a, lost), t, i);
  }

  /** An association in use, or on no list, outlives the handling of its own end. */
  lemma EndedStays(s: State, t: State, a: AssocId, lost: bool)
    requires Inv(s) && EndHandled(s, t, a, lost) && a !in s.closingAssocs && a !in s.dying
    requires a in s.inflight || a in s.leaked || a !in s.sockets[s.assocs[a].socket].connectionless
    ensures a in t.assocs && t.assocs[a] == MarkEnd(s, a, lost).assocs[a] && t.assocs[a].complete
    ensures t.inflight == s.inflight && t.leaked == s.leaked && t.dying == s.dying && t.clock == s.clock
    ensures t.assocs[a].socket == s.assocs[a].socket && t.assocs[a].shuttingDown == s.assocs[a].shuttingDown
    ensures a in t.lib.aborted <==> a in s.lib.aborted
  {
    var m := MarkEnd(s, a, lost);
    assert EvolvedId(m, t, a);
    assert AssocOk(s, a);
    MarkEndKeeps(s, a, lost);
    MarkEndHolds(s, a, lost);
    assert AssocOk(m, a) && EvolvedAssoc(m, t, a);
  }

  /** A call that closes an association it holds, or that is on no list, leaves the object. */
  ghost predicate HeldThrough(s: State, t: State, a: AssocId) {
    && a in s.assocs && a in t.assocs && t.assocs[a].shuttingDown
    && t.assocs[a].socket == s.assocs[a].socket && t.assocs[a].peeledOff == s.assocs[a].peeledOff
    && t.leaked == s.leaked && t.inflight == s.inflight && t.dying == s.dying && t.clock == s.clock
    && SameStrays(s, t, s.assocs[a].socket)
  }

  lemma HeldStarted(s: State, a: AssocId, abort: bool)
    requires Inv(s) && a in s.assocs
    ensures Inv(StartEnd(s, a, abort)) && HeldThrough(s, StartEnd(s, a, abort), a)
  {
    assert AssocOk(s, a);
    StartShutdownKeeps(s, a);
    SameStraysIf(s, StartEnd(s, a, abort), s.assocs[a].socket);
  }

  lemma HeldAlready(s: State, a: AssocId)
    requires Inv(s) && a in s.assocs && s.assocs[a].shuttingDown
    ensures HeldThrough(s, s, a)
  {
    assert AssocOk(s, a);
    SameStraysIf(s, s, s.assocs[a].socket);
  }

  lemma HeldEnded(s: State, t: State, a: AssocId, abort: bool, lost: bool)
    requires Inv(s) && a in s.assocs && a !in s.dying && EndHandled(StartEnd(s, a, abort), t, a, lost)
    requires a in s.inflight || a in s.leaked || (s.assocs[a].socket in s.sockets ==> a !in s.sockets[s.assocs[a].socket].connectionless)
    ensures HeldThrough(s, t, a) && (a in t.lib.aborted <==> abort || a in s.lib.aborted)
  {
    assert AssocOk(s, a);
    var s1 := StartEnd(s, a, abort);
    HeldStarted(s, a, abort);
    EndedStays(s1, t, a, lost);
    EndedPeeledOff(s1, a, lost);
    EndedSame(s1, t, a, lost, s.assocs[a].socket);
  }

  lemma ShutDownHolds(s: State, t: State, a: AssocId)
    requires Inv(s) && a in s.assocs && a !in s.dying
    requires a in s.inflight || a in s.leaked || (s.assocs[a].socket in s.sockets ==> a !in s.sockets[s.assocs[a].socket].connectionless)
    requires t == StartShutdown(s, a) || EndHandled(StartShutdown(s, a), t, a, true) || EndHandled(StartShutdown(s, a), t, a, false)
    ensures HeldThrough(s, t, a) && (a in t.lib.aborted <==> a in s.lib.aborted)
  {
    if t == StartShutdown(s, a) {
      HeldStarted(s, a, false);
    } else {
      HeldEnded(s, t, a, false, EndHandled(StartShutdown(s, a), t, a, true));
    }
  }

  lemma EndedPeeledOff(s: State, a: AssocId, lost: bool)
    requires a in s.assocs && s.assocs[a].socket in s.sockets
    ensures MarkEnd(s, a, lost).assocs[a].peeledOff == s.assocs[a].peeledOff
  {
  }

  /** What the end of an association leaves as it was. */
  lemma MarkEndHolds(s: State, a: AssocId, lost: bool)
    requires a in s.assocs && s.assocs[a].socket in s.sockets
    ensures var m := MarkEnd(s, a, lost);
            && m.inflight == s.inflight && m.leaked == s.leaked && m.dying == s.dying && m.clock == s.clock
            && a in m.assocs && m.assocs[a].complete && m.assocs[a].socket == s.assocs[a].socket
            && m.assocs[a].shuttingDown == s.assocs[a].shuttingDown && m.lib.aborted == s.lib.aborted
            && m.sockets.Keys == s.sockets.Keys
            && forall i <- s.sockets :: m.sockets[i].connectionless == s.sockets[i].connectionless
  {
    DeliverHolds(Finish(s, a, lost), EndEvent(a, lost));
  }

  lemma DeliverHolds(s: State, n: Notification)
    requires n.assoc in s.assocs && s.assocs[n.assoc].socket in s.sockets
    ensures var m := Deliver(s, n);
            && m == s.(assocs := m.assocs, sockets := m.sockets)
            && n.assoc in m.assocs && m.assocs[n.assoc].complete == s.assocs[n.assoc].complete
            && m.assocs[n.assoc].socket == s.assocs[n.assoc].socket
            && m.assocs[n.assoc].shuttingDown == s.assocs[n.assoc].shuttingDown
            && m.sockets.Keys == s.sockets.Keys
            && forall i <- s.sockets :: m.sockets[i].connectionless == s.sockets[i].connectionless
  {
    var x := s.assocs[n.assoc];
    NotedFrame(x, s.sockets[x.socket], n);
    QueuedFrame(x, s.sockets[x.socket], n);
  }

  /** Deleting an association of the socket takes away that association, and else at most
      connectionless ones. */
  lemma DeleteSame(s: State, u: State, t: State, i: Instance, a: AssocId)
    requires Inv(s) && a in s.assocs && s.assocs[a].socket == i && i in s.sockets && Unlisted(s, a) && a !in s.dying
    requires s.assocs[a].complete ==> t == Destroy(s, a)
    requires !s.assocs[a].complete ==>
               t == EndDying(u, a) && (Evolves(Doomed(s, a), u) || Evolves(Collect(Doomed(s, a), a), u))
    ensures i in t.sockets && Strays(t, i) == Strays(s, i) - {a} && t.dying == s.dying
    ensures t.sockets[i].connectionless <= s.sockets[i].connectionless
  {
    if !s.assocs[a].complete {
      var d := if Evolves(Doomed(s, a), u) then Doomed(s, a) else Collect(Doomed(s, a), a);
      assert Strays(d, i) == Strays(s, i);
      StraysStay(d, u, i);
      assert Strays(t, i) == Strays(u, i) - {a};
    } else {
      assert Strays(t, i) == Strays(s, i) - {a};
    }
  }

  /** Taking an association off its list and deleting it keeps the lists sound exactly if it does not wait
      to be accepted: otherwise its request names an object that is gone. */
  lemma RemovalSoundIff(s: State, i: Instance, a: AssocId)
    requires Inv(s) && i in s.sockets && a in s.assocs && s.assocs[a].socket == i && a !in s.dying
    ensures s.assocs[a].complete ==>
              (Inv(Destroy(Detach(s, i, a), a)) <==> a !in s.sockets[i].requests)
    ensures !s.assocs[a].complete ==>
              (Inv(EndDying(BeginDying(Detach(s, i, a), a), a)) <==> a !in s.sockets[i].requests)
  {
    var d := Detach(s, i, a);
    if a !in s.sockets[i].requests {
      DetachKeeps(s, i, a);
      if s.assocs[a].complete {
        DestroyKeeps(d, a);
      } else {
        BeginDyingKeeps(d, a);
        EndDyingKeeps(BeginDying(d, a), a);
      }
    } else {
      assert !ListOk(Destroy(d, a), i, a) && !ListOk(EndDying(BeginDying(d, a), a), i, a);
    }
  }

  // ---------------------------------------------------------------- one receive

  /** Exactly the socket's lost and complete associations have an error, and it always is that of a reset: the
      one for an aborted association is never reported. */
  lemma LostMeansReset(s: State, i: Instance, a: AssocId)
    requires Inv(s)
    ensures ErrorCode(s, i, a) == -Delivery.ECONNRESET || ErrorCode(s, i, a) == 0
    ensures ErrorCode(s, i, a) != 0 <==> a in s.assocs && s.assocs[a].socket == i && (s.assocs[a].lost || s.assocs[a].complete)
  {
    assert AssocOk(s, a);
  }

  /** A receive on an association's own queue. */
  function OwnPass(s: State, a: AssocId, size: nat, flags: Delivery.Flags, ok: bool): Delivery.Received
    requires a in s.assocs
  {
    var x := s.assocs[a];
    Delivery.Pass(x.inQueue, size, flags, a, x.subscribed, ok, map[a := ErrorCode(s, x.socket, a)])
  }

  /** So once everything is read, a lost association gives an end of stream, like an orderly shutdown. */
  lemma LostReadsLikeShutdown(s: State, a: AssocId, size: nat, flags: Delivery.Flags, ok: bool)
    requires Inv(s) && a in s.assocs && s.assocs[a].inQueue == [] && size > 0
    ensures var p := OwnPass(s, a, size, flags, ok);
            s.assocs[a].lost || s.assocs[a].complete <==> !p.blocked && p.result == 0
  {
    LostMeansReset(s, s.assocs[a].socket, a);
    assert AssocOk(s, a);
  }

  /** The state after a receive did `r` to the head of a socket's global queue. */
  function ReceivedGlobal(s: State, i: Instance, r: Delivery.Reception): State
    requires i in s.sockets && s.sockets[i].queue != []
  {
    if r.head.Some? then UpdateGlobal(s, i, r.head.value) else DropGlobal(s, i)
  }

  /** The state after a receive did `r` to the head of an association's own queue. */
  function ReceivedOwn(s: State, a: AssocId, r: Delivery.Reception): State
    requires a in s.assocs && s.assocs[a].inQueue != []
  {
    if r.head.Some? then UpdateOwn(s, a, r.head.value) else DropOwn(s, a)
  }

  /** The queue is what the receive left of it. */
  lemma GlobalQueueAfter(s: State, i: Instance, r: Delivery.Reception)
    requires i in s.sockets && s.sockets[i].queue != []
    ensures var t := ReceivedGlobal(s, i, r);
            i in t.sockets && t.sockets[i].queue == Delivery.QueueAfter(s.sockets[i].queue, r)
  {
  }

  lemma OwnQueueAfter(s: State, a: AssocId, r: Delivery.Reception)
    requires a in s.assocs && s.assocs[a].inQueue != []
    ensures var t := ReceivedOwn(s, a, r);
            a in t.assocs && t.assocs[a].inQueue == Delivery.QueueAfter(s.assocs[a].inQueue, r)
  {
  }

  /** A receive changes what is read of a record, never its kind or owner. */
  lemma SameRecord(n: Notification, size: nat, flags: Delivery.Flags, subscribed: Subscription, ok: bool, error: int)
    ensures var r := Delivery.ReceiveHead(n, size, flags, subscribed, ok, error);
            r.head.Some? ==> r.head.value.kind == n.kind && r.head.value.assoc == n.assoc
  {
  }
}
