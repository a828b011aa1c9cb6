/**
  * The state shared by sctplib's callbacks and the application's calls, what the engine promises of
  * it at every step, and the elementary updates.  Sockets and associations are records in two
  * tables: deleting an object removes its record.
  */
module EngineState {
  import opened Basics
  import opened Notifications

  type Instance = nat

  /** The fields of SCTPAssociation that callbacks and calls share. */
  datatype Association = Association(
    socket: Instance,
    up: bool, lost: bool, complete: bool, shuttingDown: bool, peeledOff: bool,
    useCount: nat,
    lastUsage: nat,
    subscribed: Subscription,
    inQueue: seq<Notification>,
    readReady: bool)

  /** The fields of a bound SCTPSocket.  `connectionless` is its ConnectionlessAssociationList. */
  datatype Socket = Socket(
    globalQueue: bool, autoConnect: bool, listening: bool,
    autoCloseTimeout: nat,
    subscribed: Subscription,
    queue: seq<Notification>,
    requests: seq<AssocId>,
    connectionless: set<AssocId>,
    readReady: bool,
    inAutoClose: bool, recheck: bool)

  /**
    * What sctplib knows: the associations it still holds and their instance, the instances
    * registered, the associations whose end it has reported, those it was told to abort, every ID
    * ever handed out, and how often each ID was released or unregistered.
    */
  datatype Library = Library(
    assocs: map<AssocId, Instance>,
    instances: set<Instance>,
    ended: set<AssocId>,
    aborted: set<AssocId>,
    used: set<AssocId>,
    usedInstances: set<Instance>,
    released: multiset<AssocId>,
    unregistered: multiset<Instance>)

  /**
    * `inflight` counts the associate and sendTo calls that hold an association, `leaked` the uses
    * that the code never gives back, `dying` the associations whose destructor is running.
    */
  datatype State = State(
    assocs: map<AssocId, Association>,
    sockets: map<Instance, Socket>,
    closingAssocs: map<AssocId, Instance>,
    closingSockets: set<Instance>,
    lib: Library,
    inflight: multiset<AssocId>,
    leaked: multiset<AssocId>,
    dying: set<AssocId>,
    clock: nat)

  // ---------------------------------------------------------------- what is kept

  /** The undelivered notifications that name an association. */
  function Undelivered(s: State, a: AssocId): nat
    requires a in s.assocs && s.assocs[a].socket in s.sockets
  {
    Named(s.sockets[s.assocs[a].socket].queue)[a] + |s.assocs[a].inQueue|
  }

  /** SCTPSocket::hasData. */
  predicate SocketHasData(k: Socket) {
    k.globalQueue && HasData(k.queue, k.subscribed)
  }

  ghost predicate AllNamed(queue: seq<Notification>, a: AssocId) {
    forall k :: 0 <= k < |queue| ==> queue[k].assoc == a
  }

  /**
    * A live association.  Its UseCount is exactly the undelivered notifications, the calls in
    * flight and the leaked uses; its end flags say what sctplib reported, a lost association also
    * counting as shut down; its cached ReadReady agrees with recomputing it; and it alone answers
    * for its ID, except while its destructor has passed the ID on.
    */
  ghost predicate AssocOk(s: State, a: AssocId) {
    a in s.assocs ==>
      var x := s.assocs[a];
      && a != 0 && a in s.lib.used && x.socket in s.sockets
      && x.lastUsage <= s.clock
      && AllNamed(x.inQueue, a)
      && x.useCount == Undelivered(s, a) + s.inflight[a] + s.leaked[a]
      && (x.readReady <==> HasData(x.inQueue, x.subscribed) || x.complete)
      && (x.lost ==> x.complete)
      && (a !in s.dying ==>
            && a in s.lib.assocs && s.lib.assocs[a] == x.socket && a !in s.closingAssocs
            && (x.complete <==> a in s.lib.ended))
      && (a in s.dying && a in s.lib.assocs ==> a in s.closingAssocs && s.closingAssocs[a] == x.socket)
  }

  /** An association ID: sctplib holds it while an object or the deferred collector answers for it,
      and it is released exactly once, when sctplib stops holding it, after its end was reported. */
  ghost predicate IdOk(s: State, a: AssocId) {
    && (a in s.closingAssocs ==>
          a in s.lib.assocs && s.lib.assocs[a] == s.closingAssocs[a] && a !in s.lib.ended)
    && (a in s.lib.assocs ==>
          && (a in s.assocs || a in s.closingAssocs)
          && a in s.lib.used && s.lib.assocs[a] in s.lib.instances)
    && s.lib.released[a] == (if a in s.lib.used && a !in s.lib.assocs then 1 else 0)
    && (a in s.lib.released ==> a in s.lib.ended)
    && (a in s.inflight || a in s.leaked || a in s.lib.ended ==> a in s.lib.used)
    && (a in s.dying ==> a in s.assocs)
  }

  /** An instance: registered while a socket or the deferred collector answers for it, and
      unregistered exactly once. */
  ghost predicate InstanceOk(s: State, i: Instance) {
    && (i in s.lib.instances <==> i in s.sockets || i in s.closingSockets)
    && !(i in s.sockets && i in s.closingSockets)
    && (i in s.lib.instances ==> i in s.lib.usedInstances)
    && s.lib.unregistered[i] == (if i in s.lib.usedInstances && i !in s.lib.instances then 1 else 0)
    && (i in s.sockets ==>
          var k := s.sockets[i];
          && (!k.globalQueue ==> k.queue == [])
          && (k.readReady <==> SocketHasData(k) || k.requests != []))
  }

  /** A socket's lists name its own live associations, each at most once and in one list only. */
  ghost predicate ListOk(s: State, i: Instance, a: AssocId) {
    i in s.sockets ==>
      var k := s.sockets[i];
      && (a in k.connectionless || a in k.requests ==>
            a in s.assocs && s.assocs[a].socket == i && !s.assocs[a].peeledOff && a !in s.dying)
      && !(a in k.connectionless && a in k.requests)
      && multiset(k.requests)[a] <= 1
      && (a in Named(k.queue) ==> a in s.lib.used)
  }

  ghost predicate Inv(s: State) {
    && (forall a {:trigger AssocOk(s, a)} :: AssocOk(s, a))
    && (forall a {:trigger IdOk(s, a)} :: IdOk(s, a))
    && (forall i {:trigger InstanceOk(s, i)} :: InstanceOk(s, i))
    && (forall i, a {:trigger ListOk(s, i, a)} :: ListOk(s, i, a))
  }

  // ---------------------------------------------------------------- elementary updates

  function SetAssoc(s: State, a: AssocId, x: Association): State {
    s.(assocs := s.assocs[a := x])
  }

  function SetSocket(s: State, i: Instance, k: Socket): State {
    s.(sockets := s.sockets[i := k])
  }

  /** What a notification does to its association: a wanted one counts as a use, and waits in the
      association's own queue unless it goes to the global one. */
  function Noted(x: Association, k: Socket, n: Notification): Association {
    if !Wanted(n.kind, x.subscribed) then x
    else if k.globalQueue && !x.peeledOff then x.(useCount := x.useCount + 1)
    else
      var q := x.inQueue + [n];
      x.(useCount := x.useCount + 1, inQueue := q, readReady := HasData(q, x.subscribed))
  }

  /** What it does to the association's socket. */
  function Queued(x: Association, k: Socket, n: Notification): Socket {
    if Wanted(n.kind, x.subscribed) && k.globalQueue && !x.peeledOff then
      var k' := k.(queue := k.queue + [n]);
      k'.(readReady := SocketHasData(k') || k.requests != [])
    else k
  }

  /** SCTPSocketMaster::addNotification: count a use and queue the record, if it is wanted. */
  function Deliver(s: State, n: Notification): State
    requires n.assoc in s.assocs && s.assocs[n.assoc].socket in s.sockets
  {
    var x := s.assocs[n.assoc];
    var k := s.sockets[x.socket];
    s.(assocs := s.assocs[n.assoc := Noted(x, k, n)], sockets := s.sockets[x.socket := Queued(x, k, n)])
  }

  const SCTP_ASSOC_CHANGE := 1
  const SCTP_COMM_UP := 11
  const SCTP_COMM_LOST := 12
  const SCTP_SHUTDOWN_COMP := 14

  function U16(n: nat): seq<Byte> {
    [(n % 256) as Byte, (n / 256 % 256) as Byte]
  }

  function U32(n: nat): seq<Byte> {
    U16(n % 65536) + U16(n / 65536)
  }

  /** An encoded sctp_assoc_change (20 bytes, little-endian host). */
  function AssocChangeEvent(a: AssocId, state: nat, outStreams: nat, inStreams: nat): Notification {
    Notification(AssocChange, a, [],
                 U16(SCTP_ASSOC_CHANGE) + U16(0) + U32(20) + U16(state) + U16(0) + U16(outStreams) + U16(inStreams) + U32(a))
  }

  /** sctplib reports the end of an association, and its object notes it. */
  function Finish(s: State, a: AssocId, lost: bool): State
    requires a in s.assocs
  {
    var x := s.assocs[a];
    SetAssoc(s, a, x.(lost := x.lost || lost, complete := true, readReady := true))
      .(lib := s.lib.(ended := s.lib.ended + {a}))
  }

  /** The event that tells the application about the end. */
  function EndEvent(a: AssocId, lost: bool): Notification {
    AssocChangeEvent(a, if lost then SCTP_COMM_LOST else SCTP_SHUTDOWN_COMP, 0, 0)
  }

  /** What communicationLostNotif and shutdownCompleteNotif do to a live association, before they check
      for auto-close. */
  function MarkEnd(s: State, a: AssocId, lost: bool): State
    requires a in s.assocs && s.assocs[a].socket in s.sockets
  {
    Deliver(Finish(s, a, lost), EndEvent(a, lost))
  }

  /** sctplib gives an association up (sctp_deleteAssociation). */
  function Release(s: State, a: AssocId): State {
    s.(lib := s.lib.(assocs := s.lib.assocs - {a}, released := s.lib.released + multiset{a}))
  }

  /** A finished association's destructor: release it and take it off the list. */
  function Destroy(s: State, a: AssocId): State {
    Release(s, a).(assocs := s.assocs - {a})
  }

  /** The destructor of an association that has not ended hands it to the deferred collector ... */
  function BeginDying(s: State, a: AssocId): State
    requires a in s.assocs
  {
    s.(closingAssocs := s.closingAssocs[a := s.assocs[a].socket], dying := s.dying + {a})
  }

  /** ... and takes it off the list when the shutdown has been started. */
  function EndDying(s: State, a: AssocId): State {
    s.(assocs := s.assocs - {a}, dying := s.dying - {a})
  }

  /** The deferred collector's turn, once sctplib reports the end. */
  function Collect(s: State, a: AssocId): State {
    var t := Release(s, a);
    t.(closingAssocs := s.closingAssocs - {a}, lib := t.lib.(ended := s.lib.ended + {a}))
  }

  function StartShutdown(s: State, a: AssocId): State
    requires a in s.assocs
  {
    SetAssoc(s, a, s.assocs[a].(shuttingDown := true))
  }

  /** The same for an abort, which sctplib is told about. */
  function StartAbort(s: State, a: AssocId): State
    requires a in s.assocs
  {
    var t := StartShutdown(s, a);
    t.(lib := t.lib.(aborted := t.lib.aborted + {a}))
  }

  function StartEnd(s: State, a: AssocId, abort: bool): State
    requires a in s.assocs
  {
    if abort then StartAbort(s, a) else StartShutdown(s, a)
  }

  /** An association whose destructor has started its shutdown. */
  function Doomed(s: State, a: AssocId): State
    requires a in s.assocs
  {
    StartShutdown(BeginDying(s, a), a)
  }

  /** checkAutoClose was asked for while it was already running on this socket. */
  function Recheck(s: State, i: Instance): State
    requires i in s.sockets
  {
    SetSocket(s, i, s.sockets[i].(recheck := true))
  }

  function Detach(s: State, i: Instance, a: AssocId): State
    requires i in s.sockets
  {
    SetSocket(s, i, s.sockets[i].(connectionless := s.sockets[i].connectionless - {a}))
  }

  // ---------------------------------------------------------------- elementary updates keep Inv

  /** A delivery leaves everything else about an association alone ... */
  lemma NotedFrame(x: Association, k: Socket, n: Notification)
    ensures var y := Noted(x, k, n);
            y == x.(useCount := y.useCount, inQueue := y.inQueue, readReady := y.readReady) && x.inQueue <= y.inQueue
  {
    AppendPrefix(x.inQueue, n);
  }

  /** ... and about its socket. */
  lemma QueuedFrame(x: Association, k: Socket, n: Notification)
    ensures var l := Queued(x, k, n);
            l == k.(queue := l.queue, readReady := l.readReady) && k.queue <= l.queue
  {
    AppendPrefix(k.queue, n);
  }

  lemma AppendPrefix(q: seq<Notification>, n: Notification)
    ensures q <= q + [n]
  {
  }

  lemma DeliverOwn(s: State, n: Notification)
    requires AssocOk(s, n.assoc) && n.assoc in s.assocs
    ensures AssocOk(Deliver(s, n), n.assoc)
  {
    var x := s.assocs[n.assoc];
    if !Wanted(n.kind, x.subscribed) {
    } else if s.sockets[x.socket].globalQueue && !x.peeledOff {
      NamedAppend(s.sockets[x.socket].queue, n);
    } else {
      DeliverReady(x.inQueue, n, x.subscribed);
      assert AllNamed(x.inQueue + [n], n.assoc);
    }
  }

  lemma DeliverOther(s: State, n: Notification, a: AssocId)
    requires AssocOk(s, n.assoc) && AssocOk(s, a) && n.assoc in s.assocs && a != n.assoc
    ensures AssocOk(Deliver(s, n), a)
  {
    NamedAppend(s.sockets[s.assocs[n.assoc].socket].queue, n);
  }

  lemma DeliverId(s: State, n: Notification, a: AssocId)
    requires AssocOk(s, n.assoc) && IdOk(s, a) && n.assoc in s.assocs
    ensures IdOk(Deliver(s, n), a)
  {
  }

  lemma DeliverInstance(s: State, n: Notification, i: Instance)
    requires AssocOk(s, n.assoc) && InstanceOk(s, i) && n.assoc in s.assocs
    ensures InstanceOk(Deliver(s, n), i)
  {
  }

  lemma DeliverList(s: State, n: Notification, i: Instance, a: AssocId)
    requires AssocOk(s, n.assoc) && ListOk(s, i, a) && n.assoc in s.assocs
    ensures ListOk(Deliver(s, n), i, a)
  {
    var x := s.assocs[n.assoc];
    NotedFrame(x, s.sockets[x.socket], n);
    QueuedFrame(x, s.sockets[x.socket], n);
    QueuedNames(x, s.sockets[x.socket], n, a);
  }

  lemma QueuedNames(x: Association, k: Socket, n: Notification, a: AssocId)
    ensures a in Named(Queued(x, k, n).queue) ==> a in Named(k.queue) || a == n.assoc
  {
    NamedAppend(k.queue, n);
  }

  /** addNotification keeps every invariant. */
  lemma DeliverKeeps(s: State, n: Notification)
    requires Inv(s) && n.assoc in s.assocs && s.assocs[n.assoc].socket in s.sockets
    ensures Inv(Deliver(s, n))
  {
    var t := Deliver(s, n);
    assert AssocOk(s, n.assoc);
    forall a ensures AssocOk(t, a) { 
      assert AssocOk(s, a);
      if a == n.assoc { DeliverOwn(s, n); } else { DeliverOther(s, n, a); }
    }
    forall a ensures IdOk(t, a) { assert IdOk(s, a); DeliverId(s, n, a); }
    forall i ensures InstanceOk(t, i) { assert InstanceOk(s, i); DeliverInstance(s, n, i); }
    forall i, a ensures ListOk(t, i, a) { assert ListOk(s, i, a); DeliverList(s, n, i, a); }
  }

  lemma DeliverReady(q: seq<Notification>, n: Notification, subscribed: Subscription)
    ensures HasData(q + [n], subscribed) <==> HasData(q, subscribed) || Wanted(n.kind, subscribed)
  {
    assert (q + [n])[|q|] == n;
    assert forall i :: 0 <= i < |q| ==> (q + [n])[i] == q[i];
  }

  /** Fields that no invariant speaks about may change freely. */
  lemma NeutralAssoc(s: State, a: AssocId, x: Association)
    requires Inv(s) && a in s.assocs
    requires x == s.assocs[a].(up := x.up, shuttingDown := x.shuttingDown, lastUsage := x.lastUsage)
    requires x.lastUsage <= s.clock
    ensures Inv(SetAssoc(s, a, x))
  {
    var t := SetAssoc(s, a, x);
    forall b ensures AssocOk(t, b) { assert AssocOk(s, b); }
    forall b ensures IdOk(t, b) { assert IdOk(s, b); }
    forall i ensures InstanceOk(t, i) { assert InstanceOk(s, i); }
    forall i, b ensures ListOk(t, i, b) { assert ListOk(s, i, b); }
  }

  lemma NeutralSocket(s: State, i: Instance, k: Socket)
    requires Inv(s) && i in s.sockets
    requires k == s.sockets[i].(autoConnect := k.autoConnect, listening := k.listening, recheck := k.recheck,
                                inAutoClose := k.inAutoClose, autoCloseTimeout := k.autoCloseTimeout)
    ensures Inv(SetSocket(s, i, k))
  {
    var t := SetSocket(s, i, k);
    forall b ensures AssocOk(t, b) { assert AssocOk(s, b); }
    forall b ensures IdOk(t, b) { assert IdOk(s, b); }
    forall j ensures InstanceOk(t, j) { assert InstanceOk(s, j); }
    forall j, b ensures ListOk(t, j, b) { assert ListOk(s, j, b); }
  }

  lemma FinishKeeps(s: State, a: AssocId, lost: bool)
    requires Inv(s) && a in s.assocs && a !in s.dying
    ensures Inv(Finish(s, a, lost))
  {
    var t := Finish(s, a, lost);
    assert AssocOk(s, a);
    forall b ensures AssocOk(t, b) { assert AssocOk(s, b); }
    forall b ensures IdOk(t, b) { assert IdOk(s, b); }
    forall i ensures InstanceOk(t, i) { assert InstanceOk(s, i); }
    forall i, b ensures ListOk(t, i, b) { assert ListOk(s, i, b); }
  }

  lemma DetachKeeps(s: State, i: Instance, a: AssocId)
    requires Inv(s) && i in s.sockets
    ensures Inv(Detach(s, i, a))
  {
    var t := Detach(s, i, a);
    forall b ensures AssocOk(t, b) { assert AssocOk(s, b); }
    forall b ensures IdOk(t, b) { assert IdOk(s, b); }
    forall j ensures InstanceOk(t, j) { assert InstanceOk(s, j); }
    forall j, b ensures ListOk(t, j, b) { assert ListOk(s, j, b); }
  }

  /** No list of its socket names the association. */
  predicate Unlisted(s: State, a: AssocId)
    requires a in s.assocs && s.assocs[a].socket in s.sockets
  {
    var k := s.sockets[s.assocs[a].socket];
    a !in k.connectionless && a !in k.requests
  }

  lemma DestroyKeeps(s: State, a: AssocId)
    requires Inv(s) && a in s.assocs && a !in s.dying && s.assocs[a].complete
    requires s.assocs[a].socket in s.sockets && Unlisted(s, a)
    ensures Inv(Destroy(s, a))
  {
    var t := Destroy(s, a);
    assert AssocOk(s, a) && IdOk(s, a);
    forall b ensures AssocOk(t, b) { assert AssocOk(s, b); }
    forall b ensures IdOk(t, b) { assert IdOk(s, b); }
    forall i ensures InstanceOk(t, i) { assert InstanceOk(s, i); }
    forall i, b ensures ListOk(t, i, b) { assert ListOk(s, i, b); }
  }

  lemma BeginDyingKeeps(s: State, a: AssocId)
    requires Inv(s) && a in s.assocs && a !in s.dying && !s.assocs[a].complete
    requires s.assocs[a].socket in s.sockets && Unlisted(s, a)
    ensures Inv(BeginDying(s, a))
  {
    var t := BeginDying(s, a);
    assert AssocOk(s, a) && IdOk(s, a);
    forall b ensures AssocOk(t, b) { assert AssocOk(s, b); }
    forall b ensures IdOk(t, b) { assert IdOk(s, b); }
    forall i ensures InstanceOk(t, i) { assert InstanceOk(s, i); }
    forall i, b ensures ListOk(t, i, b) { assert ListOk(s, i, b); }
  }

  lemma EndDyingKeeps(s: State, a: AssocId)
    requires Inv(s) && a in s.assocs && a in s.dying
    ensures Inv(EndDying(s, a))
  {
    var t := EndDying(s, a);
    assert AssocOk(s, a) && IdOk(s, a);
    forall b ensures AssocOk(t, b) { assert AssocOk(s, b); }
    forall b ensures IdOk(t, b) { assert IdOk(s, b); }
    forall i ensures InstanceOk(t, i) { assert InstanceOk(s, i); }
    forall i, b ensures ListOk(t, i, b) { assert ListOk(s, i, b); }
  }

  lemma CollectKeeps(s: State, a: AssocId)
    requires Inv(s) && a in s.closingAssocs
    ensures Inv(Collect(s, a))
  {
    var t := Collect(s, a);
    assert AssocOk(s, a) && IdOk(s, a);
    forall b ensures AssocOk(t, b) { assert AssocOk(s, b); }
    forall b ensures IdOk(t, b) { assert IdOk(s, b); }
    forall i ensures InstanceOk(t, i) { assert InstanceOk(s, i); }
    forall i, b ensures ListOk(t, i, b) { assert ListOk(s, i, b); }
  }

  /** Setting ReadReady after the notification instead of before it makes no difference. */
  lemma LateReady(s: State, a: AssocId)
    requires a in s.assocs && s.assocs[a].socket in s.sockets
    ensures var s1 := SetAssoc(s, a, s.assocs[a].(lost := true, complete := true))
                        .(lib := s.lib.(ended := s.lib.ended + {a}));
            var d := Deliver(s1, EndEvent(a, true));
            a in d.assocs && SetAssoc(d, a, d.assocs[a].(readReady := true)) == MarkEnd(s, a, true)
  {
    var x := s.assocs[a];
    var x1 := x.(lost := true, complete := true);
    var y := Noted(x1, s.sockets[x.socket], EndEvent(a, true));
    NotedLate(x1, s.sockets[x.socket], EndEvent(a, true));
    assert s.assocs[a := x1][a := y][a := y.(readReady := true)]
           == s.assocs[a := x1.(readReady := true)][a := y.(readReady := true)];
  }

  lemma NotedLate(x: Association, k: Socket, n: Notification)
    ensures Noted(x, k, n).(readReady := true) == Noted(x.(readReady := true), k, n)
    ensures Queued(x, k, n) == Queued(x.(readReady := true), k, n)
  {
    assert Wanted(n.kind, x.subscribed) ==> HasData(x.inQueue + [n], x.subscribed) by {
      assert (x.inQueue + [n])[|x.inQueue|] == n;
    }
  }
}
