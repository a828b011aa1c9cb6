/**
  * The linked list behind SCTPNotificationQueue: First, Last and Count kept by hand, proved to be a
  * sequence of records with append, head update, head removal and a search.
  */
module NotificationQueue {
  import opened Basics
  import opened Notifications

  class Node {
    var data: Notification
    var next: Node?

    constructor (data: Notification)
      ensures this.data == data && next == null
    {
      this.data, this.next := data, null;
    }
  }

  ghost predicate Distinct(nodes: seq<Node>) {
    forall i, j :: 0 <= i < j < |nodes| ==> nodes[i] != nodes[j]
  }

  lemma TailDistinct(nodes: seq<Node>)
    requires Distinct(nodes) && nodes != []
    ensures Distinct(nodes[1..]) && forall i :: 0 <= i < |nodes| - 1 ==> nodes[1..][i] == nodes[i + 1] != nodes[0]
  {
  }

  lemma AppendDistinct(nodes: seq<Node>, node: Node)
    requires Distinct(nodes) && node !in nodes
    ensures Distinct(nodes + [node])
    ensures (nodes + [node])[|nodes|] == node && forall i :: 0 <= i < |nodes| ==> (nodes + [node])[i] == nodes[i]
    ensures forall i :: 0 <= i < |nodes| - 1 ==> nodes[i] != nodes[|nodes| - 1]
  {
  }

  class Queue {
    var first: Node?
    var last: Node?
    var count: nat
    ghost var spine: seq<Node>
    ghost var contents: seq<Notification>

    /** The i-th node, or null past either end. */
    ghost function At(i: int): Node?
      reads this`spine
    {
      if 0 <= i < |spine| then spine[i] else null
    }

    /** The nodes are chained in spine order, without sharing, between `first` and `last`. */
    ghost predicate Chained()
      reads this`first, this`last, this`count, this`spine, spine`next
    {
      && Distinct(spine)
      && (forall i :: 0 <= i < |spine| ==> spine[i].next == At(i + 1))
      && first == At(0)
      && last == At(|spine| - 1)
      && count == |spine|
    }

    /** The nodes hold the records in order. */
    ghost predicate Holds()
      reads this`spine, this`contents, spine`data
    {
      |contents| == |spine| && forall i :: 0 <= i < |spine| ==> spine[i].data == contents[i]
    }

    ghost predicate Valid()
      reads this, spine
    {
      Chained() && Holds()
    }

    constructor ()
      ensures Valid() && contents == [] && spine == []
    {
      first, last, count, spine, contents := null, null, 0, [], [];
    }

    /** Appends a copy of the record (SCTPNotificationQueue::addNotification). */
    method Add(n: Notification)
      requires Valid()
      modifies this, spine`next
      ensures Valid() && fresh(set x | x in spine && x !in old(spine))
      ensures contents == old(contents) + [n]
      ensures count == old(count) + 1
    {
      var node := new Node(n);
      Chain(node);
      contents := contents + [n];
    }

    method Chain(node: Node)
      requires Chained() && node !in spine && node.next == null
      modifies this`first, this`last, this`count, this`spine, spine`next
      ensures Chained() && spine == old(spine) + [node]
    {
      AppendDistinct(spine, node);
      if last != null {
        last.next := node;
      }
      last := node;
      if first == null {
        first := node;
      }
      count := count + 1;
      spine := spine + [node];
    }

    /** Copies the head without removing it (getNotification). */
    method Get() returns (found: bool, n: Notification)
      requires Valid()
      ensures found <==> contents != []
      ensures found ==> n == contents[0]
    {
      if first != null {
        return true, first.data;
      }
      return false, Notification(DataArrive, 0, [], []);
    }

    /** Overwrites the head's record and keeps its link (updateNotification). */
    method UpdateHead(n: Notification)
      requires Valid()
      modifies this`contents, spine`data
      ensures Valid()
      ensures contents == if old(contents) == [] then [] else old(contents)[0 := n]
    {
      if first != null {
        assert first == spine[0] && forall i :: 0 < i < |spine| ==> spine[i] != first;
        first.data := n;
        contents := contents[0 := n];
        assert forall i :: 0 < i < |spine| ==> spine[i].data == old(spine[i].data);
      }
    }

    /** Removes the head (dropNotification). */
    method DropHead()
      requires Valid()
      modifies this
      ensures Valid() && spine == (if old(spine) == [] then [] else old(spine)[1..])
      ensures contents == if old(contents) == [] then [] else old(contents)[1..]
    {
      if first != null {
        TailDistinct(spine);
        var next := first.next;
        if last == first {
          last := next;
        }
        first := next;
        count := count - 1;
        spine, contents := spine[1..], contents[1..];
      }
    }

    /** Drops every record (flush). */
    method Flush()
      requires Valid()
      modifies this
      ensures Valid() && contents == [] && spine == [] && count == 0
    {
      var notification := first;
      ghost var i := 0;
      while notification != null
        invariant 0 <= i <= |spine|
        invariant notification == At(i)
        decreases |spine| - i
      {
        notification := notification.next;
        i := i + 1;
      }
      first, last, count, spine, contents := null, null, 0, [], [];
    }

    /** Walks the list for a record the application wants (hasData). */
    method HasWanted(subscribed: Subscription) returns (r: bool)
      requires Valid()
      ensures r <==> HasData(contents, subscribed)
      ensures r <==> exists i :: 0 <= i < |contents| && (contents[i].kind == DataArrive || contents[i].kind in subscribed)
    {
      var node := first;
      ghost var i := 0;
      while node != null
        invariant 0 <= i <= |spine|
        invariant node == At(i)
        invariant forall j :: 0 <= j < i ==> !Wanted(contents[j].kind, subscribed)
        decreases |spine| - i
      {
        if Wanted(node.data.kind, subscribed) {
          assert Wanted(contents[i].kind, subscribed);
          return true;
        }
        node := node.next;
        i := i + 1;
      }
      return false;
    }
  }
}
