/** Sending on an association: packets submitted before communication is up wait in a list, which is
    drained when it comes up and whenever sctplib's send queue has room again. */
module PreEstablishment {
  import opened Basics

  datatype Packet = Packet(data: seq<Byte>, flags: nat, protoID: nat, streamID: nat, timeToLive: nat)

  /** The MSG_DONTWAIT bit. */
  predicate DontWait(p: Packet) {
    p.flags / 0x40 % 2 == 1
  }

  /** What sctplib says to one attempt to send. */
  datatype Answer = Accepted | QueueExceeded | BadParameter | Failed

  const EINVAL := 22
  const ENOBUFS := 105
  const EIO := 5

  function SendResult(length: nat, answer: Answer): int {
    match answer
    case Accepted => length
    case QueueExceeded => -ENOBUFS
    case BadParameter => -EINVAL
    case Failed => -EIO
  }

  /** internalSend returns, or waits for room and tries again. */
  datatype Outcome = Returned(result: int) | Waiting

  /** One attempt.  An error recorded for the association is looked up before the first one. */
  function Attempt(p: Packet, first: bool, error: int, answer: Answer): Outcome {
    if first && error != 0 then Returned(error)
    else if answer == QueueExceeded && !DontWait(p) then Waiting
    else Returned(SendResult(|p.data|, answer))
  }

  /** An attempt says that the whole packet went out exactly if sctplib took it, waits exactly if its queue
      is full and the packet may wait, and otherwise gives the reason; a recorded error comes first. */
  lemma AttemptTells(p: Packet, first: bool, error: int, answer: Answer)
    requires error <= 0
    ensures var looked, outcome := first && error != 0, Attempt(p, first, error, answer);
            && (outcome == Returned(|p.data|) <==> !looked && answer == Accepted)
            && (outcome == Waiting <==> !looked && answer == QueueExceeded && p.flags / 0x40 % 2 == 0)
            && (looked ==> outcome == Returned(error))
            && (!looked && answer == QueueExceeded && p.flags / 0x40 % 2 == 1 ==> outcome == Returned(-105))
            && (!looked && answer == BadParameter ==> outcome == Returned(-22))
            && (!looked && answer == Failed ==> outcome == Returned(-5))
  {
  }

  /** A packet with the number of the submission it came from. */
  datatype Item = Item(packet: Packet, number: nat, early: bool)

  datatype Defaults = Defaults(protoID: nat, streamID: nat, timeToLive: nat)

  /** The packet that a direct send hands over, if any. */
  function Direct(p: Packet, useDefaults: bool, d: Defaults): seq<Packet> {
    if !useDefaults then [p]
    else if p.data == [] then []
    else [p.(protoID := d.protoID, streamID := d.streamID, timeToLive := d.timeToLive)]
  }

  /** Submitted early, a packet reaches sctplib as it would if submitted late, exactly if the
      association's defaults are not asked for or say the same as the arguments. */
  lemma EarlyLikeLate(p: Packet, useDefaults: bool, d: Defaults)
    ensures Direct(p, false, d) == Direct(p, useDefaults, d)
            <==> (useDefaults ==> p.data != [] && Defaults(p.protoID, p.streamID, p.timeToLive) == d)
  {
    if useDefaults && p.data != [] {
      assert Direct(p, true, d)[0].protoID == d.protoID;
    }
  }

  // ----- The draining loop, attempt by attempt -----

  /** What a drain meets: the error recorded (none is 0) when its k-th packet's turn comes, and
      sctplib's answer to the t-th attempt to send that packet. */
  datatype Library = Library(errors: nat -> int, answers: (nat, nat) -> Answer)

  /** `handed` packets have been handed over, and the next has been tried `tries` times. */
  datatype Drain = Drain(queue: seq<Item>, sent: seq<Item>, handed: nat, tries: nat, stopped: bool)

  /** One pass of the loop over the packets, or of the loop that waits for room.  sendTo appends a copy
      of the head again as long as communication is not up. */
  function DrainStep(d: Drain, up: bool, lib: Library): Drain {
    if d.stopped || d.queue == [] then d.(stopped := true)
    else
      var head := d.queue[0];
      if !up then d.(queue := d.queue[1..] + [head])
      else match Attempt(head.packet, d.tries == 0, lib.errors(d.handed), lib.answers(d.handed, d.tries))
        case Waiting => d.(tries := d.tries + 1)
        case Returned(result) =>
          if result == |head.packet.data| then Drain(d.queue[1..], d.sent + [head], d.handed + 1, 0, false)
          else d.(stopped := true)
  }

  function DrainSteps(d: Drain, up: bool, lib: Library, n: nat): Drain {
    if n == 0 then d else DrainStep(DrainSteps(d, up, lib, n - 1), up, lib)
  }

  function Start(queue: seq<Item>, sent: seq<Item>): Drain {
    Drain(queue, sent, 0, 0, false)
  }

  /** The drain ends at some time. */
  ghost predicate Ends(queue: seq<Item>, sent: seq<Item>, up: bool, lib: Library) {
    exists n :: DrainSteps(Start(queue, sent), up, lib, n).stopped
  }

  /** The k-th packet's sending returns: an error is recorded, or it does not wait, or at some point
      sctplib says something else than that its queue is full. */
  ghost predicate Returns(p: Packet, lib: Library, k: nat) {
    lib.errors(k) != 0 || DontWait(p) || exists t: nat :: lib.answers(k, t) != QueueExceeded
  }

  /** The k-th packet is accepted at the t-th attempt. */
  ghost predicate AcceptedAt(p: Packet, lib: Library, k: nat, t: nat) {
    && lib.errors(k) == 0 && lib.answers(k, t) == Accepted && (t == 0 || !DontWait(p))
    && forall u: nat :: u < t ==> lib.answers(k, u) == QueueExceeded
  }

  ghost predicate Accepts(p: Packet, lib: Library, k: nat) {
    exists t: nat :: AcceptedAt(p, lib, k, t)
  }

  /** The drain comes to the k-th packet: all before it are accepted. */
  ghost predicate Reached(queue: seq<Item>, lib: Library, k: nat)
    requires k <= |queue|
  {
    forall j :: 0 <= j < k ==> Accepts(queue[j].packet, lib, j)
  }

  /** The state while the k-th packet is being sent. */
  function At(queue: seq<Item>, sent: seq<Item>, k: nat, tries: nat): Drain
    requires k <= |queue|
  {
    Drain(queue[k..], sent + queue[..k], k, tries, false)
  }

  lemma StepAt(queue: seq<Item>, sent: seq<Item>, k: nat, tries: nat, lib: Library)
    requires k < |queue| && (forall e :: lib.errors(e) <= 0)
    ensures var p := queue[k].packet;
            DrainStep(At(queue, sent, k, tries), true, lib)
            == if tries == 0 && lib.errors(k) != 0 then At(queue, sent, k, tries).(stopped := true)
               else match lib.answers(k, tries)
                 case Accepted => At(queue, sent, k + 1, 0)
                 case QueueExceeded => if DontWait(p) then At(queue, sent, k, tries).(stopped := true) else At(queue, sent, k, tries + 1)
                 case _ => At(queue, sent, k, tries).(stopped := true)
  {
    assert queue[k..][0] == queue[k] && queue[k..][1..] == queue[k + 1..];
    assert sent + queue[..k] + [queue[k]] == sent + queue[..k + 1];
  }

  lemma StartAt(queue: seq<Item>, sent: seq<Item>)
    ensures Start(queue, sent) == At(queue, sent, 0, 0)
  {
    assert queue[0..] == queue && sent + queue[..0] == sent;
  }

  /** Waiting goes on as long as sctplib's queue is full. */
  lemma {:induction false} Waits(queue: seq<Item>, sent: seq<Item>, lib: Library, k: nat, n: nat, t: nat)
    requires k < |queue| && (forall e :: lib.errors(e) <= 0) && (t == 0 || (lib.errors(k) == 0 && !DontWait(queue[k].packet)))
    requires DrainSteps(Start(queue, sent), true, lib, n) == At(queue, sent, k, 0)
    requires forall u: nat :: u < t ==> lib.answers(k, u) == QueueExceeded
    ensures DrainSteps(Start(queue, sent), true, lib, n + t) == At(queue, sent, k, t)
  {
    if t > 0 {
      Waits(queue, sent, lib, k, n, t - 1);
      StepWaits(queue, sent, lib, k, t - 1);
      DrainNext(Start(queue, sent), true, lib, n + t - 1, At(queue, sent, k, t - 1), At(queue, sent, k, t));
    }
  }

  lemma StepWaits(queue: seq<Item>, sent: seq<Item>, lib: Library, k: nat, t: nat)
    requires k < |queue| && (forall e :: lib.errors(e) <= 0) && lib.errors(k) == 0 && !DontWait(queue[k].packet)
    requires lib.answers(k, t) == QueueExceeded
    ensures DrainStep(At(queue, sent, k, t), true, lib) == At(queue, sent, k, t + 1)
  {
    StepAt(queue, sent, k, t, lib);
  }

  lemma DrainNext(d: Drain, up: bool, lib: Library, n: nat, at: Drain, next: Drain)
    requires DrainSteps(d, up, lib, n) == at && DrainStep(at, up, lib) == next
    ensures DrainSteps(d, up, lib, n + 1) == next
  {
  }

  /** The first answer of a packet that is not the last. */
  lemma {:induction false} FirstOther(lib: Library, k: nat, t: nat) returns (first: nat)
    requires lib.answers(k, t) != QueueExceeded
    ensures lib.answers(k, first) != QueueExceeded && forall u: nat :: u < first ==> lib.answers(k, u) == QueueExceeded
    decreases t
  {
    if u :| 0 <= u < t && lib.answers(k, u) != QueueExceeded {
      first := FirstOther(lib, k, u);
    } else {
      first := t;
    }
  }

  /** Attempt t decides about a packet: all before it have waited, and it does not. */
  ghost predicate DecidedBy(p: Packet, lib: Library, k: nat, t: nat) {
    && (t == 0 || (lib.errors(k) == 0 && !DontWait(p)))
    && (forall u: nat :: u < t ==> lib.answers(k, u) == QueueExceeded)
    && ((t == 0 && lib.errors(k) != 0) || DontWait(p) || lib.answers(k, t) != QueueExceeded)
  }

  lemma Decides(p: Packet, lib: Library, k: nat) returns (t: nat)
    requires Returns(p, lib, k)
    ensures DecidedBy(p, lib, k, t)
  {
    t := 0;
    if lib.errors(k) == 0 && !DontWait(p) {
      var some: nat :| lib.answers(k, some) != QueueExceeded;
      t := FirstOther(lib, k, some);
    }
  }

  lemma ReachedNext(queue: seq<Item>, lib: Library, k: nat, t: nat)
    requires k < |queue| && Reached(queue, lib, k) && AcceptedAt(queue[k].packet, lib, k, t)
    ensures Reached(queue, lib, k + 1)
  {
    assert Accepts(queue[k].packet, lib, k);
  }

  /** The drain has ended, or has come to the packet after the k-th. */
  ghost predicate Past(queue: seq<Item>, sent: seq<Item>, lib: Library, k: nat, d: Drain)
    requires k < |queue|
  {
    d.stopped || (d == At(queue, sent, k + 1, 0) && Reached(queue, lib, k + 1))
  }

  /** A packet whose sending returns is passed on to sctplib, or ends the drain. */
  lemma SendingReturns(queue: seq<Item>, sent: seq<Item>, lib: Library, k: nat, n: nat) returns (m: nat)
    requires k < |queue| && Reached(queue, lib, k) && (forall e :: lib.errors(e) <= 0)
    requires DrainSteps(Start(queue, sent), true, lib, n) == At(queue, sent, k, 0)
    requires Returns(queue[k].packet, lib, k)
    ensures Past(queue, sent, lib, k, DrainSteps(Start(queue, sent), true, lib, m))
  {
    var t := Decides(queue[k].packet, lib, k);
    m := n + t + 1;
    CameTo(queue, sent, lib, k, n, t);
    Decided(queue, sent, lib, k, t);
  }

  lemma CameTo(queue: seq<Item>, sent: seq<Item>, lib: Library, k: nat, n: nat, t: nat)
    requires k < |queue| && (forall e :: lib.errors(e) <= 0)
    requires DrainSteps(Start(queue, sent), true, lib, n) == At(queue, sent, k, 0) && DecidedBy(queue[k].packet, lib, k, t)
    ensures DrainSteps(Start(queue, sent), true, lib, n + t + 1) == DrainStep(At(queue, sent, k, t), true, lib)
  {
    Waits(queue, sent, lib, k, n, t);
    DrainNext(Start(queue, sent), true, lib, n + t, At(queue, sent, k, t), DrainStep(At(queue, sent, k, t), true, lib));
  }

  lemma Decided(queue: seq<Item>, sent: seq<Item>, lib: Library, k: nat, t: nat)
    requires k < |queue| && Reached(queue, lib, k) && (forall e :: lib.errors(e) <= 0)
    requires DecidedBy(queue[k].packet, lib, k, t)
    ensures Past(queue, sent, lib, k, DrainStep(At(queue, sent, k, t), true, lib))
  {
    StepAt(queue, sent, k, t, lib);
    if !(t == 0 && lib.errors(k) != 0) && lib.answers(k, t) == Accepted {
      ReachedNext(queue, lib, k, t);
    }
  }

  /** If every packet reached returns, the drain ends. */
  lemma {:induction false} EndsFrom(queue: seq<Item>, sent: seq<Item>, lib: Library, k: nat, n: nat)
    requires k <= |queue| && Reached(queue, lib, k) && (forall e :: lib.errors(e) <= 0)
    requires DrainSteps(Start(queue, sent), true, lib, n) == At(queue, sent, k, 0)
    requires forall j :: 0 <= j < |queue| && Reached(queue, lib, j) ==> Returns(queue[j].packet, lib, j)
    ensures Ends(queue, sent, true, lib)
    decreases |queue| - k
  {
    if k == |queue| {
      assert DrainSteps(Start(queue, sent), true, lib, n + 1).stopped;
    } else {
      var m := SendingReturns(queue, sent, lib, k, n);
      if !DrainSteps(Start(queue, sent), true, lib, m).stopped {
        EndsFrom(queue, sent, lib, k + 1, m);
      }
    }
  }

  /** A packet that is accepted in the end waits until then. */
  lemma TriesUntilAccepted(p: Packet, lib: Library, k: nat, tries: nat)
    requires Accepts(p, lib, k) && forall u: nat :: u < tries ==> lib.answers(k, u) == QueueExceeded
    ensures lib.errors(k) == 0
    ensures lib.answers(k, tries) == Accepted || (lib.answers(k, tries) == QueueExceeded && !DontWait(p))
  {
    var t: nat :| AcceptedAt(p, lib, k, t);
    assert tries <= t;
  }

  /** Before a packet whose sending never returns, the drain goes on for ever. */
  lemma {:induction false} NeverPast(queue: seq<Item>, sent: seq<Item>, lib: Library, k: nat, n: nat) returns (j: nat, tries: nat)
    requires k < |queue| && Reached(queue, lib, k) && !Returns(queue[k].packet, lib, k) && (forall e :: lib.errors(e) <= 0)
    ensures j <= k && DrainSteps(Start(queue, sent), true, lib, n) == At(queue, sent, j, tries)
    ensures forall u: nat :: u < tries ==> lib.answers(j, u) == QueueExceeded
  {
    if n == 0 {
      StartAt(queue, sent);
      j, tries := 0, 0;
    } else {
      j, tries := NeverPast(queue, sent, lib, k, n - 1);
      StepAt(queue, sent, j, tries, lib);
      if j < k {
        TriesUntilAccepted(queue[j].packet, lib, j, tries);
        if lib.answers(j, tries) == Accepted {
          j, tries := j + 1, 0;
        } else {
          tries := tries + 1;
        }
      } else {
        tries := tries + 1;
      }
    }
  }

  lemma {:induction false} RotatesForever(d: Drain, lib: Library, n: nat)
    requires !d.stopped && d.queue != []
    ensures var e := DrainSteps(d, false, lib, n);
            !e.stopped && e.sent == d.sent && |e.queue| == |d.queue| && multiset(e.queue) == multiset(d.queue)
  {
    if n > 0 {
      RotatesForever(d, lib, n - 1);
      Rotates(DrainSteps(d, false, lib, n - 1), lib);
    }
  }

  lemma Rotates(d: Drain, lib: Library)
    requires !d.stopped && d.queue != []
    ensures var e := DrainStep(d, false, lib);
            !e.stopped && e.sent == d.sent && |e.queue| == |d.queue| && multiset(e.queue) == multiset(d.queue)
  {
    assert d.queue == [d.queue[0]] + d.queue[1..];
  }

  /**
    * The drain ends exactly if nothing is queued, or communication is up and the sending of every
    * packet that it comes to returns.
    */
  lemma DrainEndsIff(queue: seq<Item>, sent: seq<Item>, up: bool, lib: Library)
    requires forall e :: lib.errors(e) <= 0
    ensures Ends(queue, sent, up, lib)
            <==> queue == []
                 || (up && forall k :: 0 <= k < |queue| && Reached(queue, lib, k) ==> Returns(queue[k].packet, lib, k))
  {
    if queue == [] {
      assert DrainSteps(Start(queue, sent), up, lib, 1).stopped;
    } else if !up {
      forall n: nat ensures !DrainSteps(Start(queue, sent), up, lib, n).stopped {
        RotatesForever(Start(queue, sent), lib, n);
      }
    } else if forall k :: 0 <= k < |queue| && Reached(queue, lib, k) ==> Returns(queue[k].packet, lib, k) {
      StartAt(queue, sent);
      EndsFrom(queue, sent, lib, 0, 0);
    } else {
      var k :| 0 <= k < |queue| && Reached(queue, lib, k) && !Returns(queue[k].packet, lib, k);
      forall n: nat ensures !DrainSteps(Start(queue, sent), up, lib, n).stopped {
        var j, tries := NeverPast(queue, sent, lib, k, n);
      }
    }
  }

  /** So with one waiting packet queued, a drain does not end if sctplib's queue stays full, nor, whatever
      sctplib says, before communication is up. */
  lemma DrainMayNotEnd(p: Packet)
    requires !DontWait(p)
    ensures var lib := Library(_ => 0, (_, _) => QueueExceeded); !Ends([Item(p, 0, true)], [], true, lib)
    ensures var lib := Library(_ => 0, (_, _) => Accepted); !Ends([Item(p, 0, true)], [], false, lib)
  {
    var full, free := Library(_ => 0, (_, _) => QueueExceeded), Library(_ => 0, (_, _) => Accepted);
    DrainEndsIff([Item(p, 0, true)], [], true, full);
    assert Reached([Item(p, 0, true)], full, 0) && !Returns(p, full, 0);
    DrainEndsIff([Item(p, 0, true)], [], false, free);
  }

  lemma {:induction false} StoppedStays(d: Drain, up: bool, lib: Library, n: nat, m: nat)
    requires n <= m && DrainSteps(d, up, lib, n).stopped
    ensures DrainSteps(d, up, lib, m) == DrainSteps(d, up, lib, n)
  {
    if n < m {
      StoppedStays(d, up, lib, n, m - 1);
    }
  }

  // ----- Order and completeness -----

  function EarlyOnly(items: seq<Item>): seq<Item> {
    if items == [] then []
    else EarlyOnly(items[..|items| - 1]) + if items[|items| - 1].early then [items[|items| - 1]] else []
  }

  ghost predicate Ordered(items: seq<Item>) {
    forall i, j :: 0 <= i < j < |items| ==> items[i].number < items[j].number
  }

  ghost predicate Bounded(items: seq<Item>, bound: nat) {
    forall i :: 0 <= i < |items| ==> items[i].number < bound
  }

  lemma EarlyOnlyAppend(items: seq<Item>, x: Item)
    ensures EarlyOnly(items + [x]) == EarlyOnly(items) + if x.early then [x] else []
  {
    assert (items + [x])[..|items|] == items;
  }

  lemma MoveHead(front: seq<Item>, queue: seq<Item>)
    requires queue != []
    ensures front + [queue[0]] + queue[1..] == front + queue
  {
  }

  lemma EarlyMoves(sent: seq<Item>, queue: seq<Item>)
    requires queue != [] && queue[0].early
    ensures sent + [queue[0]] + queue[1..] == sent + queue
    ensures EarlyOnly(sent + [queue[0]]) + queue[1..] == EarlyOnly(sent) + queue
  {
    EarlyOnlyAppend(sent, queue[0]);
    MoveHead(sent, queue);
    MoveHead(EarlyOnly(sent), queue);
  }

  lemma BoundedMoves(sent: seq<Item>, queue: seq<Item>, bound: nat)
    requires queue != [] && Bounded(sent, bound) && Bounded(queue, bound)
    ensures Bounded(sent + [queue[0]], bound) && Bounded(queue[1..], bound)
  {
  }

  ghost predicate Consistent(sent: seq<Item>, queue: seq<Item>, early: seq<Item>, submitted: nat, overtaken: bool) {
    && EarlyOnly(sent) + queue == early
    && (forall i :: 0 <= i < |queue| ==> queue[i].early)
    && Bounded(sent, submitted) && Bounded(queue, submitted)
    && (Ordered(sent + queue) <==> !overtaken)
  }

  /** Moving the head of the queue to sctplib changes nothing about order and completeness. */
  lemma MoveKeeps(sent: seq<Item>, queue: seq<Item>, early: seq<Item>, submitted: nat, overtaken: bool)
    requires Consistent(sent, queue, early, submitted, overtaken) && queue != []
    ensures Consistent(sent + [queue[0]], queue[1..], early, submitted, overtaken)
    ensures sent + [queue[0]] + queue[1..] == sent + queue
  {
    EarlyMoves(sent, queue);
    BoundedMoves(sent, queue, submitted);
  }

  lemma OrderedAppend(items: seq<Item>, x: Item)
    requires Bounded(items, x.number)
    ensures Ordered(items + [x]) <==> Ordered(items)
  {
    if Ordered(items + [x]) {
      forall i, j | 0 <= i < j < |items| ensures items[i].number < items[j].number {
        assert (items + [x])[i].number < (items + [x])[j].number;
      }
    }
  }

  lemma Overtaking(sent: seq<Item>, x: Item, queue: seq<Item>)
    requires Bounded(queue, x.number) && queue != []
    ensures !Ordered(sent + [x] + queue)
  {
    var all := sent + [x] + queue;
    assert all[|sent|] == x && all[|sent| + 1] == queue[0];
  }

  /** A packet accepted directly overtakes those still queued. */
  lemma HandOverKeeps(sent: seq<Item>, queue: seq<Item>, early: seq<Item>, submitted: nat, overtaken: bool, x: Item)
    requires Consistent(sent, queue, early, submitted, overtaken) && x.number == submitted && !x.early
    ensures Consistent(sent + [x], queue, early, submitted + 1, overtaken || queue != [])
  {
    EarlyOnlyAppend(sent, x);
    BoundedAppend(sent, queue, submitted, x);
    HandOverOrder(sent, queue, x);
  }

  lemma BoundedAppend(sent: seq<Item>, queue: seq<Item>, bound: nat, x: Item)
    requires Bounded(sent, bound) && Bounded(queue, bound) && x.number == bound
    ensures Bounded(sent + [x], bound + 1) && Bounded(queue, bound + 1)
  {
  }

  lemma HandOverOrder(sent: seq<Item>, queue: seq<Item>, x: Item)
    requires Bounded(sent, x.number) && Bounded(queue, x.number)
    ensures Ordered(sent + [x] + queue) <==> queue == [] && Ordered(sent + queue)
  {
    if queue == [] {
      OrderedAppend(sent, x);
      assert sent + queue == sent && sent + [x] + queue == sent + [x];
    } else {
      Overtaking(sent, x, queue);
    }
  }

  lemma {:induction false} DrainKeeps(d: Drain, lib: Library, n: nat, early: seq<Item>, submitted: nat, overtaken: bool)
    requires Consistent(d.sent, d.queue, early, submitted, overtaken)
    ensures var e := DrainSteps(d, true, lib, n);
            Consistent(e.sent, e.queue, early, submitted, overtaken) && e.sent + e.queue == d.sent + d.queue && |e.sent| >= |d.sent|
  {
    if n > 0 {
      DrainKeeps(d, lib, n - 1, early, submitted, overtaken);
      StepKeeps(DrainSteps(d, true, lib, n - 1), lib, early, submitted, overtaken);
    }
  }

  lemma StepKeeps(d: Drain, lib: Library, early: seq<Item>, submitted: nat, overtaken: bool)
    requires Consistent(d.sent, d.queue, early, submitted, overtaken)
    ensures var e := DrainStep(d, true, lib);
            Consistent(e.sent, e.queue, early, submitted, overtaken) && e.sent + e.queue == d.sent + d.queue && |e.sent| >= |d.sent|
  {
    if d.queue != [] {
      MoveKeeps(d.sent, d.queue, early, submitted, overtaken);
    }
  }

  /** The sending side of an association. */
  class Outbox {
    var up: bool
    var queue: seq<Item>
    var sent: seq<Item>
    var defaults: Defaults
    var submitted: nat
    ghost var early: seq<Item>
    ghost var overtaken: bool

    /**
      * The packets submitted early are those sctplib has accepted followed by those still queued, in
      * order and unchanged.  Everything is in order of submission exactly if no packet was accepted
      * directly while others were still queued.
      */
    ghost predicate Valid()
      reads this
    {
      Consistent(sent, queue, early, submitted, overtaken)
    }

    constructor (d: Defaults)
      ensures Valid() && !up && queue == [] && sent == [] && early == [] && defaults == d
    {
      up, queue, sent, defaults := false, [], [], d;
      early, submitted, overtaken := [], 0, false;
    }

    /** One attempt of sendTo: it returns, or waits for room and is made again with `first` false. */
    method SendTo(p: Packet, useDefaults: bool, first: bool, error: int, answer: Answer) returns (outcome: Outcome)
      requires Valid() && error <= 0
      modifies this`queue, this`sent, this`early, this`submitted, this`overtaken
      ensures Valid()
      ensures !up ==> outcome == Returned(|p.data|) && sent == old(sent)
                      && queue == old(queue) + [Item(p, old(submitted), true)]
                      && early == old(early) + [Item(p, old(submitted), true)]
      ensures up ==> queue == old(queue) && early == old(early)
      ensures up ==> var direct := Direct(p, useDefaults, defaults);
                     && outcome == (if direct == [] then Returned(0) else Attempt(direct[0], first, error, answer))
                     && sent == old(sent) + if direct != [] && Passes(first, error, answer)
                                            then [Item(direct[0], old(submitted), false)] else []
      ensures overtaken <==> old(overtaken)
                             || (up && queue != [] && Passes(first, error, answer) && Direct(p, useDefaults, defaults) != [])
    {
      if !up {
        Queue(Item(p, submitted, true));
        return Returned(|p.data|);
      }
      if useDefaults && p.data == [] {
        return Returned(0);
      }
      var q := p;
      if useDefaults {
        q := p.(protoID := defaults.protoID, streamID := defaults.streamID, timeToLive := defaults.timeToLive);
      }
      outcome := HandOverOnce(q, first, error, answer);
    }

    method HandOverOnce(q: Packet, first: bool, error: int, answer: Answer) returns (outcome: Outcome)
      requires Valid() && error <= 0
      modifies this`sent, this`submitted, this`overtaken
      ensures Valid() && outcome == Attempt(q, first, error, answer)
      ensures sent == old(sent) + if Passes(first, error, answer) then [Item(q, old(submitted), false)] else []
      ensures overtaken <==> old(overtaken) || (queue != [] && Passes(first, error, answer))
    {
      outcome := Attempt(q, first, error, answer);
      if outcome == Returned(|q.data|) {
        HandOver(Item(q, submitted, false));
      }
    }

    /** sctplib takes the packet. */
    predicate Passes(first: bool, error: int, answer: Answer) {
      !(first && error != 0) && answer.Accepted?
    }

    method Queue(x: Item)
      requires Valid() && x.number == submitted && x.early
      modifies this`queue, this`early, this`submitted
      ensures Valid() && queue == old(queue) + [x] && early == old(early) + [x]
    {
      OrderedAppend(sent + queue, x);
      assert sent + (queue + [x]) == sent + queue + [x];
      assert EarlyOnly(sent) + (queue + [x]) == EarlyOnly(sent) + queue + [x];
      queue := queue + [x];
      early := early + [x];
      submitted := submitted + 1;
    }

    method HandOver(x: Item)
      requires Valid() && x.number == submitted && !x.early
      modifies this`sent, this`submitted, this`overtaken
      ensures Valid() && sent == old(sent) + [x] && overtaken == (old(overtaken) || queue != [])
    {
      HandOverKeeps(sent, queue, early, submitted, overtaken, x);
      sent := sent + [x];
      submitted := submitted + 1;
      overtaken := overtaken || queue != [];
    }

    /**
      * sendPreEstablishmentPackets, for at most the given number of attempts: it has returned by then,
      * or it is still at it.  While communication is up it loses, copies and reorders nothing.
      */
    method SendPreEstablishmentPackets(lib: Library, attempts: nat) returns (returned: bool, done: bool)
      requires Valid()
      modifies this`queue, this`sent
      ensures var d := DrainSteps(Start(old(queue), old(sent)), up, lib, attempts);
              queue == d.queue && sent == d.sent && returned == d.stopped
      ensures returned ==> (done <==> queue == [])
      ensures up || returned ==> Valid() && sent + queue == old(sent + queue) && |sent| >= |old(sent)|
      ensures !up && old(queue) != [] ==> !returned && sent == old(sent) && multiset(queue) == multiset(old(queue))
    {
      ghost var start := Start(queue, sent);
      returned := Drains(lib, attempts);
      done := queue == [];
      if up {
        DrainKeeps(start, lib, attempts, early, submitted, overtaken);
      } else if start.queue != [] {
        RotatesForever(start, lib, attempts);
      } else {
        NothingToDrain(start, up, lib, attempts);
      }
    }

    method Drains(lib: Library, attempts: nat) returns (returned: bool)
      modifies this`queue, this`sent
      ensures var d := DrainSteps(Start(old(queue), old(sent)), up, lib, attempts);
              queue == d.queue && sent == d.sent && returned == d.stopped
    {
      ghost var start := Start(queue, sent);
      var handed, tries, n := 0, 0, 0;
      returned := false;
      while n < attempts && !returned
        invariant n <= attempts && Drain(queue, sent, handed, tries, returned) == DrainSteps(start, up, lib, n)
      {
        handed, tries, returned := Try(lib, handed, tries);
        n := n + 1;
      }
      if returned {
        StoppedStays(start, up, lib, n, attempts);
      }
    }

    /** One pass of the loops. */
    method Try(lib: Library, handed: nat, tries: nat) returns (handed': nat, tries': nat, returned: bool)
      modifies this`queue, this`sent
      ensures Drain(queue, sent, handed', tries', returned)
              == DrainStep(Drain(old(queue), old(sent), handed, tries, false), up, lib)
    {
      handed', tries', returned := handed, tries, false;
      if queue == [] {
        returned := true;
      } else if !up {
        queue := queue[1..] + [queue[0]];
      } else {
        match Attempt(queue[0].packet, tries == 0, lib.errors(handed), lib.answers(handed, tries)) {
          case Waiting => tries' := tries + 1;
          case Returned(result) =>
            if result == |queue[0].packet.data| {
              sent, queue, handed', tries' := sent + [queue[0]], queue[1..], handed + 1, 0;
            } else {
              returned := true;
            }
        }
      }
    }

    /** Communication comes up for an association that was set up from this side. */
    method CommunicationUp(lib: Library, attempts: nat) returns (returned: bool)
      requires Valid()
      modifies this`up, this`queue, this`sent
      ensures Valid() && up && sent + queue == old(sent + queue)
      ensures returned == DrainSteps(Start(old(queue), old(sent)), true, lib, attempts).stopped
    {
      up := true;
      var done;
      returned, done := SendPreEstablishmentPackets(lib, attempts);
    }

    /**
      * A whole run, up to a drain that has not returned after its attempts; `n` events are taken.
      * The packets submitted early arrive completely, in order and with their fields intact: accepted
      * and queued together, they are always the early submissions.  Only a drain before communication
      * is up breaks this, and that one never returns.
      */
    method Run(events: seq<Event>) returns (n: nat, draining: bool)
      requires Valid()
      modifies this
      ensures n <= |events| && (!draining ==> n == |events|) && (draining ==> n > 0 && !events[n - 1].Send?)
      ensures draining && !up ==> events[n - 1].QueueStatusChange?
      ensures up || !draining ==> Valid()
      ensures up || !draining ==> (queue == [] ==> EarlyOnly(sent) == early) && (!overtaken ==> Ordered(sent + queue))
      ensures |old(early)| <= |early| && early[..|old(early)|] == old(early)
    {
      n, draining := 0, false;
      while n < |events| && !draining
        invariant n <= |events| && (draining ==> n > 0 && !events[n - 1].Send?)
        invariant draining && !up ==> events[n - 1].QueueStatusChange?
        invariant up || !draining ==> Valid()
        invariant |old(early)| <= |early| && early[..|old(early)|] == old(early)
      {
        draining := Handle(events[n]);
        n := n + 1;
      }
      assert EarlyOnly(sent) + [] == EarlyOnly(sent);
    }

    method Handle(e: Event) returns (draining: bool)
      requires Valid()
      modifies this
      ensures draining ==> !e.Send?
      ensures draining && !up ==> e.QueueStatusChange?
      ensures up || !draining ==> Valid()
      ensures |old(early)| <= |early| && early[..|old(early)|] == old(early)
    {
      draining := false;
      var returned := true;
      match e {
        case Send(p, useDefaults, first, error, answer) =>
          if error <= 0 {
            var _ := SendTo(p, useDefaults, first, error, answer);
          }
        case Up(lib, attempts) =>
          returned := CommunicationUp(lib, attempts);
        case QueueStatusChange(lib, attempts) =>
          var done;
          returned, done := SendPreEstablishmentPackets(lib, attempts);
      }
      draining := !returned;
    }
  }

  lemma {:induction false} NothingToDrain(d: Drain, up: bool, lib: Library, n: nat)
    requires d.queue == []
    ensures var e := DrainSteps(d, up, lib, n); e.queue == [] && e.sent == d.sent
  {
    if n > 0 {
      NothingToDrain(d, up, lib, n - 1);
    }
  }

  datatype Event =
    | Send(packet: Packet, useDefaults: bool, first: bool, error: int, answer: Answer)
    | Up(lib: Library, attempts: nat)
    | QueueStatusChange(lib: Library, attempts: nat)
}
