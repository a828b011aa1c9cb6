/** The notification records that sctplib's callbacks queue for the application. */
module Notifications {
  import opened Basics

  /** The tag of a notification (the sn_type values that the socket layer queues). */
  datatype Kind =
    | DataArrive
    | AssocChange
    | PeerAddrChange
    | RemoteError
    | SendFailed
    | ShutdownEvent

  /** The set of event kinds an application subscribed to (the SCTP_RECV... bits). */
  type Subscription = set<Kind>

  /**
    * A queued notification.  For an event, the application has read the bytes `read` of its encoding
    * and not yet the bytes `unread` (so ContentPosition is |read|).  For arrived data, `unread` is
    * what sctplib still holds of the chunk (so |unread| is the record's count of arrived bytes).
    */
  datatype Notification = Notification(
    kind: Kind,
    assoc: AssocId,
    read: seq<Byte>,
    unread: seq<Byte>)

  /** Arrived data is always wanted, an event only when its kind was subscribed to. */
  predicate Wanted(kind: Kind, subscribed: Subscription) {
    kind == DataArrive || kind in subscribed
  }

  /** Some record of the queue can be handed to the application. */
  predicate HasData(queue: seq<Notification>, subscribed: Subscription) {
    exists i :: 0 <= i < |queue| && Wanted(queue[i].kind, subscribed)
  }

  /** The association that each record of a queue names. */
  function Owners(queue: seq<Notification>): (s: seq<AssocId>)
    ensures |s| == |queue| && forall i :: 0 <= i < |s| ==> s[i] == queue[i].assoc
  {
    seq(|queue|, i requires 0 <= i < |queue| => queue[i].assoc)
  }

  /** How often each association is named. */
  function Named(queue: seq<Notification>): multiset<AssocId> {
    multiset(Owners(queue))
  }

  lemma NamedAppend(queue: seq<Notification>, n: Notification)
    ensures Named(queue + [n]) == Named(queue) + multiset{n.assoc}
  {
    assert Owners(queue + [n]) == Owners(queue) + [n.assoc];
  }

  lemma NamedDrop(queue: seq<Notification>)
    requires queue != []
    ensures Named(queue) == Named(queue[1..]) + multiset{queue[0].assoc}
  {
    assert Owners(queue) == [queue[0].assoc] + Owners(queue[1..]);
  }

  lemma NamedUpdateHead(queue: seq<Notification>, n: Notification)
    requires queue != [] && queue[0].assoc == n.assoc
    ensures Named(queue[0 := n]) == Named(queue)
  {
    assert Owners(queue[0 := n]) == Owners(queue);
  }

  /** Exactly the associations of queued records are counted. */
  lemma NamedIff(queue: seq<Notification>, a: AssocId)
    ensures a in Named(queue) <==> exists i :: 0 <= i < |queue| && queue[i].assoc == a
  {
    assert a in Named(queue) <==> a in Owners(queue);
  }
}
