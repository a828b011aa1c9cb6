/**
  * Handing queued records to the application: SCTPSocket::internalReceive on the head of a queue,
  * reading a record piece by piece, and the retry loop of ext_recvmsg_singlebuffer.
  */
module Delivery {
  import opened Basics
  import opened Notifications
  import NotificationQueue

  const EINVAL := 22
  const EAGAIN := 11
  const ECONNABORTED := 103
  const ECONNRESET := 104

  /** The message flags that internalReceive reads or writes. */
  datatype Flags = Flags(notification: bool, peek: bool, dontWait: bool, eor: bool)

  /** What one call does with the head: the record that stays (if any), the bytes and the result. */
  datatype Reception = Reception(result: int, chunk: seq<Byte>, flags: Flags, head: Option<Notification>)

  /** An event is copied out only if events are asked for now and its kind was subscribed to. */
  predicate Deliverable(n: Notification, subscribed: Subscription, notifications: bool) {
    n.kind == DataArrive || (notifications && n.kind in subscribed)
  }

  /** ContentPosition put back to 0. */
  function Rewound(n: Notification): Notification {
    n.(read := [], unread := n.read + n.unread)
  }

  /**
    * One receive on a head record.  `ok` says whether sctplib's own receive succeeds, and `error`
    * is the error code of the record's association (0, -ECONNRESET or -ECONNABORTED).
    */
  function ReceiveHead(n: Notification, size: nat, flags: Flags, subscribed: Subscription,
                       ok: bool, error: int): (r: Reception)
  {
    if n.kind == DataArrive then
      var f := flags.(notification := false);
      if n.unread == [] then Reception(0, [], f, None)
      else if !ok then Reception(-ECONNABORTED, [], f, None)
      else
        var take := Min(|n.unread|, size);
        var rest := n.unread[take..];
        if flags.peek then Reception(take, n.unread[..take], f, Some(n))
        else if rest != [] then Reception(take, n.unread[..take], f, Some(n.(unread := rest)))
        else Reception(take, n.unread[..take], f.(eor := true), None)
    else if Deliverable(n, subscribed, flags.notification) then
      var take := Min(|n.unread|, size);
      var chunk := n.unread[..take];
      var moved := n.(read := n.read + chunk, unread := n.unread[take..]);
      if moved.unread != [] then
        Reception(take, chunk, flags, Some(if flags.peek then Rewound(moved) else moved))
      else if flags.peek then Reception(take, chunk, flags.(eor := true), Some(Rewound(moved)))
      else Reception(take, chunk, flags.(eor := true), None)
    else if error != 0 then Reception(error, [], flags, None)
    else Reception(-EAGAIN, [], flags.(notification := false), None)
  }

  // ---------------------------------------------------------------- what one call gives

  /** The record's bytes are handed out: sctplib still has the data and gives it, or it is an event that
      the application has subscribed to and asks for. */
  predicate HandedOut(n: Notification, notifications: bool, subscribed: Subscription, ok: bool) {
    if n.kind == DataArrive then n.unread != [] && ok else notifications && n.kind in subscribed
  }

  /**
    * One call copies the next unread bytes, as many as there are but no more than fit the buffer, and
    * returns their number; if it hands nothing out it copies nothing.
    */
  lemma CopiesWhatFits(n: Notification, size: nat, flags: Flags, subscribed: Subscription, ok: bool, error: int)
    ensures var r := ReceiveHead(n, size, flags, subscribed, ok, error);
            && |r.chunk| <= size && r.chunk <= n.unread
            && (error <= 0 && r.result >= 0 ==> r.result == |r.chunk|)
            && (HandedOut(n, flags.notification, subscribed, ok) ==>
                  r.result == |r.chunk| && (|r.chunk| == size || r.chunk == n.unread))
            && (!HandedOut(n, flags.notification, subscribed, ok) ==>
                  && r.chunk == []
                  && (n.kind == DataArrive ==> r.result == if n.unread == [] then 0 else -ECONNABORTED)
                  && (n.kind != DataArrive ==> r.result == if error != 0 then error else -EAGAIN))
  {
  }

  /**
    * MSG_NOTIFICATION says whether what was handed out is an event.  MSG_EOR is set exactly if that was
    * all of it, except for a peek at data.
    */
  lemma FlagsTell(n: Notification, size: nat, flags: Flags, subscribed: Subscription, ok: bool, error: int)
    ensures var r := ReceiveHead(n, size, flags, subscribed, ok, error);
            && r.flags.peek == flags.peek && r.flags.dontWait == flags.dontWait
            && (HandedOut(n, flags.notification, subscribed, ok) ==> (r.flags.notification <==> n.kind != DataArrive))
            && (n.kind == DataArrive ==> !r.flags.notification)
            && r.flags.eor == (flags.eor || (HandedOut(n, flags.notification, subscribed, ok) && r.chunk == n.unread
                                             && !(flags.peek && n.kind == DataArrive)))
  {
  }

  /** A record stays queued exactly if something is handed out and it is a peek or there is more; an
      ordinary call leaves the bytes not handed out. */
  lemma RestStays(n: Notification, size: nat, flags: Flags, subscribed: Subscription, ok: bool, error: int)
    ensures var r := ReceiveHead(n, size, flags, subscribed, ok, error);
            && (r.head.Some? <==> HandedOut(n, flags.notification, subscribed, ok) && (flags.peek || r.chunk != n.unread))
            && (r.head.Some? ==>
                  && r.head.value.kind == n.kind && r.head.value.assoc == n.assoc
                  && (!flags.peek ==> r.chunk + r.head.value.unread == n.unread)
                  && (n.kind != DataArrive ==> r.head.value.read + r.head.value.unread == n.read + n.unread))
  {
  }

  /** The queue after a call that did `r` to its head. */
  function QueueAfter(queue: seq<Notification>, r: Reception): seq<Notification>
    requires queue != []
  {
    if r.head.Some? then queue[0 := r.head.value] else queue[1..]
  }

  // ---------------------------------------------------------------- piecewise reading

  /** What the application sees of one call: the bytes, and whether MSG_EOR was raised. */
  datatype Piece = Piece(bytes: seq<Byte>, eor: bool)

  /** One ordinary call: no MSG_PEEK, nothing raised yet, sctplib's receive succeeding. */
  function Call(n: Notification, size: nat, subscribed: Subscription, notifications: bool): (r: Reception)
  {
    ReceiveHead(n, size, Flags(notifications, false, false, false), subscribed, true, 0)
  }

  /** The same as a peek. */
  function Look(n: Notification, size: nat, subscribed: Subscription, notifications: bool): (r: Reception)
  {
    ReceiveHead(n, size, Flags(notifications, true, false, false), subscribed, true, 0)
  }

  /** What happens to a queue: the application receives or peeks, or a record arrives. */
  datatype Step = Take(size: nat) | Peek(size: nat) | Arrive(n: Notification)

  function AfterStep(queue: seq<Notification>, step: Step, subscribed: Subscription, notifications: bool): seq<Notification> {
    match step
    case Arrive(n) => queue + [n]
    case Take(size) => if queue == [] then [] else QueueAfter(queue, Call(queue[0], size, subscribed, notifications))
    case Peek(size) => if queue == [] then [] else QueueAfter(queue, Look(queue[0], size, subscribed, notifications))
  }

  /** The pieces that the application gets by its ordinary receives; an undeliverable head gives an
      empty one and is skipped. */
  function Pieces(queue: seq<Notification>, steps: seq<Step>, subscribed: Subscription,
                  notifications: bool): seq<Piece>
    decreases |steps|
  {
    if steps == [] then []
    else
      var rest := Pieces(AfterStep(queue, steps[0], subscribed, notifications), steps[1..], subscribed, notifications);
      if steps[0].Take? && queue != [] then
        var r := Call(queue[0], steps[0].size, subscribed, notifications);
        [Piece(r.chunk, r.flags.eor)] + rest
      else rest
  }

  /** The queue left behind. */
  function QueueLeft(queue: seq<Notification>, steps: seq<Step>, subscribed: Subscription,
                     notifications: bool): seq<Notification>
    decreases |steps|
  {
    if steps == [] then queue
    else QueueLeft(AfterStep(queue, steps[0], subscribed, notifications), steps[1..], subscribed, notifications)
  }

  /** The records that arrive. */
  function Arrived(steps: seq<Step>): seq<Notification> {
    if steps == [] then []
    else (if steps[0].Arrive? then [steps[0].n] else []) + Arrived(steps[1..])
  }

  /** Buffers are not empty, data records are not empty (an assumption on sctplib), and nobody peeks at
      an event that has been read in part. */
  ghost predicate Proper(queue: seq<Notification>, steps: seq<Step>, subscribed: Subscription, notifications: bool)
    decreases |steps|
  {
    steps != [] ==>
      && Proper(AfterStep(queue, steps[0], subscribed, notifications), steps[1..], subscribed, notifications)
      && match steps[0]
         case Arrive(n) => NonEmptyData([n])
         case Take(size) => size > 0
         case Peek(size) => size > 0 && (queue != [] ==> queue[0].kind == DataArrive || queue[0].read == [])
  }

  /** How an application reassembles messages: pieces are collected until MSG_EOR. */
  function Messages(pieces: seq<Piece>, pending: seq<Byte>): seq<seq<Byte>> {
    if pieces == [] then []
    else if pieces[0].eor then [pending + pieces[0].bytes] + Messages(pieces[1..], [])
    else Messages(pieces[1..], pending + pieces[0].bytes)
  }

  /** The bytes collected after the last MSG_EOR. */
  function Pending(pieces: seq<Piece>, pending: seq<Byte>): seq<Byte> {
    if pieces == [] then pending
    else if pieces[0].eor then Pending(pieces[1..], [])
    else Pending(pieces[1..], pending + pieces[0].bytes)
  }

  /** The unread bytes of the records that will be handed over, in queue order. */
  function Undelivered(queue: seq<Notification>, subscribed: Subscription, notifications: bool): seq<seq<Byte>>
  {
    if queue == [] then []
    else if Deliverable(queue[0], subscribed, notifications) then
      [queue[0].unread] + Undelivered(queue[1..], subscribed, notifications)
    else Undelivered(queue[1..], subscribed, notifications)
  }

  /** Bytes already collected belong in front of the first message still queued. */
  function Prepend(pending: seq<Byte>, rest: seq<seq<Byte>>): seq<seq<Byte>> {
    if rest == [] then (if pending == [] then [] else [pending])
    else [pending + rest[0]] + rest[1..]
  }

  /** Between calls, the application holds a partial message only while its record heads the queue. */
  ghost predicate InStep(queue: seq<Notification>, pending: seq<Byte>, subscribed: Subscription, notifications: bool) {
    pending != [] ==> queue != [] && Deliverable(queue[0], subscribed, notifications)
  }

  /** Data records are never empty (an assumption on sctplib). */
  ghost predicate NonEmptyData(queue: seq<Notification>) {
    forall i :: 0 <= i < |queue| && queue[i].kind == DataArrive ==> queue[i].unread != []
  }

  /**
    * Nothing is lost, duplicated or reordered: whatever the application receives with positive buffer
    * sizes, peeks at, and whatever arrives meanwhile, the messages reassembled at MSG_EOR, followed by
    * what is collected so far and still queued, are exactly the contents of the deliverable records
    * queued at the start and arrived since, in that order.
    */
  lemma {:induction false} PiecewiseDelivery(queue: seq<Notification>, steps: seq<Step>, pending: seq<Byte>,
                                             subscribed: Subscription, notifications: bool)
    requires NonEmptyData(queue) && Proper(queue, steps, subscribed, notifications)
    requires InStep(queue, pending, subscribed, notifications)
    ensures var pieces := Pieces(queue, steps, subscribed, notifications);
            var left := QueueLeft(queue, steps, subscribed, notifications);
            && NonEmptyData(left)
            && InStep(left, Pending(pieces, pending), subscribed, notifications)
            && Messages(pieces, pending)
                 + Prepend(Pending(pieces, pending), Undelivered(left, subscribed, notifications))
               == Prepend(pending, Undelivered(queue, subscribed, notifications))
                    + Undelivered(Arrived(steps), subscribed, notifications)
    decreases |steps|
  {
    if steps == [] {
    } else if steps[0].Take? && queue != [] {
      TakeDelivers(queue, steps, pending, subscribed, notifications);
    } else {
      var after := AfterStep(queue, steps[0], subscribed, notifications);
      IdleStep(queue, steps[0], pending, subscribed, notifications);
      PiecewiseDelivery(after, steps[1..], pending, subscribed, notifications);
      ArrivedFirst(steps, subscribed, notifications);
      Regroup(Prepend(pending, Undelivered(queue, subscribed, notifications)),
              Undelivered(if steps[0].Arrive? then [steps[0].n] else [], subscribed, notifications),
              Undelivered(Arrived(steps[1..]), subscribed, notifications));
    }
  }

  /** The case of an ordinary receive. */
  lemma {:induction false} TakeDelivers(queue: seq<Notification>, steps: seq<Step>, pending: seq<Byte>,
                                        subscribed: Subscription, notifications: bool)
    requires NonEmptyData(queue) && Proper(queue, steps, subscribed, notifications)
    requires InStep(queue, pending, subscribed, notifications)
    requires steps != [] && steps[0].Take? && queue != []
    ensures var pieces := Pieces(queue, steps, subscribed, notifications);
            var left := QueueLeft(queue, steps, subscribed, notifications);
            && NonEmptyData(left)
            && InStep(left, Pending(pieces, pending), subscribed, notifications)
            && Messages(pieces, pending)
                 + Prepend(Pending(pieces, pending), Undelivered(left, subscribed, notifications))
               == Prepend(pending, Undelivered(queue, subscribed, notifications))
                    + Undelivered(Arrived(steps), subscribed, notifications)
    decreases |steps|, 0
  {
    var r := Call(queue[0], steps[0].size, subscribed, notifications);
    var after := QueueAfter(queue, r);
    var pending' := if r.flags.eor then [] else pending + r.chunk;
    CallProper(queue, steps[0].size, pending, subscribed, notifications);
    CallBalances(queue, steps[0].size, pending, subscribed, notifications);
    PiecewiseDelivery(after, steps[1..], pending', subscribed, notifications);
    var arrived := Undelivered(Arrived(steps), subscribed, notifications);
    assert Arrived(steps) == Arrived(steps[1..]);
    var done := if r.flags.eor then [pending + r.chunk] else [];
    Regroup(done, Prepend(pending', Undelivered(after, subscribed, notifications)), arrived);
    Glue(Piece(r.chunk, r.flags.eor), Pieces(after, steps[1..], subscribed, notifications), pending,
         Undelivered(QueueLeft(after, steps[1..], subscribed, notifications), subscribed, notifications),
         Prepend(pending', Undelivered(after, subscribed, notifications)) + arrived,
         Prepend(pending, Undelivered(queue, subscribed, notifications)) + arrived);
  }

  /** Puts the first piece in front of an account of the remaining ones. */
  lemma Glue(p: Piece, rest: seq<Piece>, pending: seq<Byte>,
             left: seq<seq<Byte>>, after: seq<seq<Byte>>, before: seq<seq<Byte>>)
    requires var pending' := if p.eor then [] else pending + p.bytes;
             && Messages(rest, pending') + Prepend(Pending(rest, pending'), left) == after
             && (if p.eor then [pending + p.bytes] else []) + after == before
    ensures Messages([p] + rest, pending) + Prepend(Pending([p] + rest, pending), left) == before
  {
    var pending' := if p.eor then [] else pending + p.bytes;
    var done := if p.eor then [pending + p.bytes] else [];
    var tail := Prepend(Pending(rest, pending'), left);
    assert ([p] + rest)[1..] == rest;
    assert (done + Messages(rest, pending')) + tail == done + (Messages(rest, pending') + tail);
    assert [] + Messages(rest, pending') == Messages(rest, pending');
  }

  lemma Regroup(a: seq<seq<Byte>>, b: seq<seq<Byte>>, c: seq<seq<Byte>>)
    ensures (a + b) + c == a + (b + c)
  {
  }

  lemma {:induction false} UndeliveredTwo(a: seq<Notification>, b: seq<Notification>, subscribed: Subscription, notifications: bool)
    ensures Undelivered(a + b, subscribed, notifications)
            == Undelivered(a, subscribed, notifications) + Undelivered(b, subscribed, notifications)
  {
    if a == [] {
      assert a + b == b;
    } else {
      assert (a + b)[1..] == a[1..] + b;
      UndeliveredTwo(a[1..], b, subscribed, notifications);
    }
  }

  lemma ArrivedFirst(steps: seq<Step>, subscribed: Subscription, notifications: bool)
    requires steps != []
    ensures Undelivered(Arrived(steps), subscribed, notifications)
            == Undelivered(if steps[0].Arrive? then [steps[0].n] else [], subscribed, notifications)
                 + Undelivered(Arrived(steps[1..]), subscribed, notifications)
  {
    UndeliveredTwo(if steps[0].Arrive? then [steps[0].n] else [], Arrived(steps[1..]), subscribed, notifications);
  }

  /** An arrival adds to what is undelivered, and a proper peek, or a receive that finds nothing, changes
      nothing about it. */
  lemma IdleStep(queue: seq<Notification>, step: Step, pending: seq<Byte>, subscribed: Subscription, notifications: bool)
    requires NonEmptyData(queue) && InStep(queue, pending, subscribed, notifications)
    requires Proper(queue, [step], subscribed, notifications) && !(step.Take? && queue != [])
    ensures var after := AfterStep(queue, step, subscribed, notifications);
            && NonEmptyData(after) && InStep(after, pending, subscribed, notifications)
            && Prepend(pending, Undelivered(after, subscribed, notifications))
               == Prepend(pending, Undelivered(queue, subscribed, notifications))
                    + Undelivered(if step.Arrive? then [step.n] else [], subscribed, notifications)
  {
    match step
    case Arrive(n) =>
      UndeliveredTwo(queue, [n], subscribed, notifications);
      assert pending != [] ==> (queue + [n])[0] == queue[0];
      PrependTwo(pending, Undelivered(queue, subscribed, notifications), Undelivered([n], subscribed, notifications));
    case Take(_) =>
    case Peek(size) =>
      if queue != [] {
        PeekKeeps(queue, size, subscribed, notifications);
      }
  }

  lemma PrependTwo(pending: seq<Byte>, a: seq<seq<Byte>>, b: seq<seq<Byte>>)
    requires pending != [] ==> a != []
    ensures Prepend(pending, a + b) == Prepend(pending, a) + b
  {
    if a == [] {
      assert a + b == b;
      if b != [] {
        assert pending + b[0] == b[0];
        assert [b[0]] + b[1..] == b;
      }
    } else {
      assert (a + b)[1..] == a[1..] + b;
    }
  }

  lemma PeekKeeps(queue: seq<Notification>, size: nat, subscribed: Subscription, notifications: bool)
    requires queue != [] && size > 0 && NonEmptyData(queue) && (queue[0].kind == DataArrive || queue[0].read == [])
    ensures var after := QueueAfter(queue, Look(queue[0], size, subscribed, notifications));
            if Deliverable(queue[0], subscribed, notifications) then after == queue else after == queue[1..]
  {
    PeekHarmless(queue, size, Flags(notifications, true, false, false), subscribed, true, 0);
  }

  /** A call keeps the queue well-formed and the application in step with it. */
  lemma CallProper(queue: seq<Notification>, size: nat, pending: seq<Byte>,
                   subscribed: Subscription, notifications: bool)
    requires queue != [] && NonEmptyData(queue) && size > 0
    requires InStep(queue, pending, subscribed, notifications)
    ensures var r := Call(queue[0], size, subscribed, notifications);
            var after := QueueAfter(queue, r);
            && NonEmptyData(after)
            && InStep(after, if r.flags.eor then [] else pending + r.chunk, subscribed, notifications)
  {
  }

  /** A call moves bytes from the queue to the application and finishes a message exactly when it
      drops a deliverable record. */
  lemma CallBalances(queue: seq<Notification>, size: nat, pending: seq<Byte>,
                     subscribed: Subscription, notifications: bool)
    requires queue != [] && NonEmptyData(queue) && size > 0
    requires InStep(queue, pending, subscribed, notifications)
    ensures var r := Call(queue[0], size, subscribed, notifications);
            var after := QueueAfter(queue, r);
            (if r.flags.eor then [pending + r.chunk] else [])
              + Prepend(if r.flags.eor then [] else pending + r.chunk, Undelivered(after, subscribed, notifications))
            == Prepend(pending, Undelivered(queue, subscribed, notifications))
  {
    var r := Call(queue[0], size, subscribed, notifications);
    if r.head.Some? {
      KeptHead(queue, r.head.value, r.chunk, pending, subscribed, notifications);
      assert [] + Prepend(pending + r.chunk, Undelivered(QueueAfter(queue, r), subscribed, notifications))
             == Prepend(pending + r.chunk, Undelivered(QueueAfter(queue, r), subscribed, notifications));
    } else {
      DroppedHead(queue, size, pending, subscribed, notifications);
    }
  }

  lemma KeptHead(queue: seq<Notification>, n: Notification, chunk: seq<Byte>, pending: seq<Byte>,
                 subscribed: Subscription, notifications: bool)
    requires queue != [] && n.kind == queue[0].kind
    requires Deliverable(n, subscribed, notifications) && queue[0].unread == chunk + n.unread
    ensures var after := queue[0 := n];
            Prepend(pending + chunk, Undelivered(after, subscribed, notifications))
               == Prepend(pending, Undelivered(queue, subscribed, notifications))
  {
    assert queue[0 := n][1..] == queue[1..];
    assert pending + queue[0].unread == pending + chunk + n.unread;
  }

  lemma DroppedHead(queue: seq<Notification>, size: nat, pending: seq<Byte>,
                    subscribed: Subscription, notifications: bool)
    requires queue != [] && NonEmptyData(queue)
    requires InStep(queue, pending, subscribed, notifications)
    requires Call(queue[0], size, subscribed, notifications).head.None?
    ensures var r := Call(queue[0], size, subscribed, notifications);
            (if r.flags.eor then [pending + r.chunk] else [])
              + Prepend(if r.flags.eor then [] else pending + r.chunk,
                        Undelivered(queue[1..], subscribed, notifications))
            == Prepend(pending, Undelivered(queue, subscribed, notifications))
  {
    var r := Call(queue[0], size, subscribed, notifications);
    var rest := Undelivered(queue[1..], subscribed, notifications);
    if rest != [] { assert [] + rest[0] == rest[0]; }
    assert Prepend([], rest) == rest;
    if Deliverable(queue[0], subscribed, notifications) {
      assert r.flags.eor && r.chunk == queue[0].unread;
    } else {
      assert !r.flags.eor && pending == [] && pending + r.chunk == [];
      assert [] + rest == rest;
    }
  }

  /** Once the queue is read, the application has every deliverable record whole. */
  lemma {:induction false} WholeRecords(queue: seq<Notification>, steps: seq<Step>, subscribed: Subscription, notifications: bool)
    requires NonEmptyData(queue) && Proper(queue, steps, subscribed, notifications)
    requires QueueLeft(queue, steps, subscribed, notifications) == []
    ensures Messages(Pieces(queue, steps, subscribed, notifications), [])
            == Undelivered(queue, subscribed, notifications) + Undelivered(Arrived(steps), subscribed, notifications)
  {
    PiecewiseDelivery(queue, steps, [], subscribed, notifications);
    var u := Undelivered(queue, subscribed, notifications);
    if u != [] { assert [] + u[0] == u[0]; }
    assert Prepend([], u) == u;
  }

  /** Peeking leaves the queue as it was exactly when the head is data sctplib can hand out, or a
      deliverable event that has not been read in part. */
  lemma PeekHarmless(queue: seq<Notification>, size: nat, flags: Flags, subscribed: Subscription,
                     ok: bool, error: int)
    requires queue != [] && flags.peek && size > 0
    ensures var n := queue[0];
            QueueAfter(queue, ReceiveHead(n, size, flags, subscribed, ok, error)) == queue
            <==> if n.kind == DataArrive then n.unread != [] && ok
                 else Deliverable(n, subscribed, flags.notification) && n.read == []
  {
    var n := queue[0];
    var r := ReceiveHead(n, size, flags, subscribed, ok, error);
    if r.head.Some? {
      assert queue[0 := r.head.value][0] == r.head.value;
      if n.kind != DataArrive && n.read == [] {
        var take := Min(|n.unread|, size);
        assert [] + n.unread[..take] + n.unread[take..] == n.unread;
        assert r.head.value == n;
      }
    } else {
      assert |QueueAfter(queue, r)| != |queue|;
    }
  }

  // ---------------------------------------------------------------- waiting for a data record

  /** The error code getErrorCode reports for an association: none recorded means 0. */
  function ErrorOf(errors: map<AssocId, int>, a: AssocId): int {
    if a in errors then errors[a] else 0
  }

  /** The body of internalReceive that reads a head record, returning whether it stays and how. */
  method ReadHead(head: Notification, size: nat, flagsIn: Flags, subscribed: Subscription, ok: bool, error: int)
    returns (result: int, chunk: seq<Byte>, flags: Flags, updated: bool, n: Notification)
    ensures Reception(result, chunk, flags, if updated then Some(n) else None)
            == ReceiveHead(head, size, flagsIn, subscribed, ok, error)
  {
    flags, chunk, n := flagsIn, [], head;
    var receiveNotifications := flags.notification;
    updated := false;
    result := 0;
    if n.kind == DataArrive {
      flags := flags.(notification := false);
      if |n.unread| > 0 {
        var receivedBytes := Min(|n.unread|, size);
        if ok {
          chunk := n.unread[..receivedBytes];
          result := receivedBytes;
          if flags.peek {
            updated := true;
          } else {
            n := n.(unread := n.unread[receivedBytes..]);
            if |n.unread| > 0 {
              updated := true;
            } else {
              flags := flags.(eor := true);
            }
          }
        } else {
          result := -ECONNABORTED;
        }
      }
    } else {
      if receiveNotifications && n.kind in subscribed {
        var toCopy := Min(|n.unread|, size);
        chunk := n.unread[..toCopy];
        n := n.(read := n.read + chunk, unread := n.unread[toCopy..]);
        if |n.unread| > 0 {
          if flags.peek {
            n := Rewound(n);
          }
          updated := true;
          flags := flags.(notification := true);
        } else {
          if flags.peek {
            n := Rewound(n);
            updated := true;
          }
          flags := flags.(eor := true, notification := true);
        }
        result := toCopy;
      } else {
        result := error;
        if result == 0 {
          result := -EAGAIN;
          flags := flags.(notification := false);
        }
      }
    }
  }

  /** An empty data record leaves the caller's association ID in place. */
  function Accounted(n: Notification, own: AssocId): AssocId {
    if n.kind == DataArrive && n.unread == [] then own else n.assoc
  }

  /** What a call hands back: its result, bytes and flags, whether it still waits, the associations
      that its drops are accounted to, and the records it leaves. */
  datatype Received = Received(result: int, chunk: seq<Byte>, flags: Flags, blocked: bool,
                               accounted: seq<AssocId>, left: seq<Notification>)

  /**
    * One pass of internalReceive.  `own` is the association the caller names (0 for a socket's
    * global queue).  With an empty queue a recorded error is reported, an orderly shutdown as end
    * of stream; otherwise MSG_DONTWAIT gives -EAGAIN and a waiting call is blocked.
    */
  function Pass(queue: seq<Notification>, size: nat, flags: Flags, own: AssocId, subscribed: Subscription,
                ok: bool, errors: map<AssocId, int>): (p: Received)
  {
    if size == 0 then Received(-EINVAL, [], flags, false, [], queue)
    else if queue == [] then
      var error := ErrorOf(errors, own);
      if error == -ECONNRESET then Received(0, [], flags.(notification := false), false, [], [])
      else if error != 0 then Received(error, [], flags, false, [], [])
      else if flags.dontWait then Received(-EAGAIN, [], flags, false, [], [])
      else Received(0, [], flags, true, [], [])
    else
      var r := ReceiveHead(queue[0], size, flags, subscribed, ok, ErrorOf(errors, queue[0].assoc));
      Received(r.result, r.chunk, r.flags, false,
               if r.head.None? then [Accounted(queue[0], own)] else [], QueueAfter(queue, r))
  }

  /** With nothing queued, a receive waits exactly if no error is recorded and it may wait.  A reset is an
      end of stream, any other error is returned, and a call that may not wait is told to try again. */
  lemma NothingQueued(size: nat, flags: Flags, own: AssocId, subscribed: Subscription, ok: bool, errors: map<AssocId, int>)
    requires size > 0 && ErrorCodes(errors)
    ensures var p := Pass([], size, flags, own, subscribed, ok, errors);
            && p.chunk == [] && p.accounted == [] && p.left == []
            && (p.blocked <==> own !in errors && !flags.dontWait)
            && (own in errors && errors[own] == -ECONNRESET ==> p.result == 0 && p.flags == flags.(notification := false))
            && (own in errors && errors[own] != -ECONNRESET ==> p.result == errors[own] && p.flags == flags)
            && (own !in errors ==> p.result == (if flags.dontWait then -EAGAIN else 0) && p.flags == flags)
  {
  }

  lemma PassFits(queue: seq<Notification>, size: nat, flags: Flags, own: AssocId, subscribed: Subscription, ok: bool,
                 errors: map<AssocId, int>)
    ensures var p := Pass(queue, size, flags, own, subscribed, ok, errors);
            |p.chunk| <= size && (ErrorCodes(errors) && p.result >= 0 ==> p.result == |p.chunk|)
  {
    if queue != [] {
      CopiesWhatFits(queue[0], size, flags, subscribed, ok, ErrorOf(errors, queue[0].assoc));
    }
  }

  /** internalReceive on the linked queue. */
  method InternalReceive(queue: NotificationQueue.Queue, size: nat, flagsIn: Flags, own: AssocId,
                         subscribed: Subscription, ok: bool, errors: map<AssocId, int>)
    returns (result: int, chunk: seq<Byte>, flags: Flags, blocked: bool, accounted: seq<AssocId>)
    requires queue.Valid()
    modifies queue, queue.spine
    ensures queue.Valid()
    ensures forall i :: 0 <= i < |queue.spine| ==> queue.spine[i] in old(queue.spine)
    ensures Received(result, chunk, flags, blocked, accounted, queue.contents)
            == Pass(old(queue.contents), size, flagsIn, own, subscribed, ok, errors)
    ensures |chunk| <= size && (ErrorCodes(errors) && result >= 0 ==> result == |chunk|)
  {
    PassFits(queue.contents, size, flagsIn, own, subscribed, ok, errors);
    flags, chunk, accounted, blocked, result := flagsIn, [], [], false, 0;
    if size == 0 {
      result := -EINVAL;
      return;
    }
    var received, n := queue.Get();
    if !received {
      result, flags, blocked := ReceiveNothing(queue, flags, ErrorOf(errors, own), subscribed);
      return;
    }
    assert n == queue.contents[0];
    var updated, next;
    result, chunk, flags, updated, next := ReadHead(n, size, flags, subscribed, ok, ErrorOf(errors, n.assoc));
    if updated {
      queue.UpdateHead(next);
    } else {
      queue.DropHead();
      accounted := [Accounted(n, own)];
    }
  }

  /** The part of internalReceive for an empty queue. */
  method ReceiveNothing(queue: NotificationQueue.Queue, flagsIn: Flags, error: int, subscribed: Subscription)
    returns (result: int, flags: Flags, blocked: bool)
    requires queue.Valid() && queue.contents == []
    ensures blocked <==> error == 0 && !flagsIn.dontWait
    ensures result == if error == -ECONNRESET || blocked then 0 else if error != 0 then error else -EAGAIN
    ensures flags == if error == -ECONNRESET then flagsIn.(notification := false) else flagsIn
  {
    result, flags, blocked := error, flagsIn, false;
    if error != 0 {
      var wanted := queue.HasWanted(subscribed);
      if error == -ECONNRESET && !wanted {
        flags := flags.(notification := false);
        result := 0;
      }
    } else if flags.dontWait {
      result := -EAGAIN;
    } else {
      blocked := true;
    }
  }

  /** A record that ends the retry loop: data, or an event of an association with a recorded error. */
  predicate Stops(n: Notification, errors: map<AssocId, int>) {
    n.kind == DataArrive || ErrorOf(errors, n.assoc) != 0
  }

  /** The index of the first record that ends the retry loop, or the length of the queue. */
  function FirstStop(queue: seq<Notification>, errors: map<AssocId, int>): (k: nat)
    ensures k <= |queue|
    ensures forall i :: 0 <= i < k ==> !Stops(queue[i], errors)
    ensures k < |queue| ==> Stops(queue[k], errors)
  {
    if queue == [] || Stops(queue[0], errors) then 0 else 1 + FirstStop(queue[1..], errors)
  }

  /** The associations named by the first k records. */
  function Names(queue: seq<Notification>, k: nat): (s: seq<AssocId>)
    requires k <= |queue|
    ensures |s| == k && forall i :: 0 <= i < k ==> s[i] == queue[i].assoc
  {
    if k == 0 then [] else Names(queue, k - 1) + [queue[k - 1].assoc]
  }

  /** The loop of ext_recvmsg_singlebuffer: receive again while it says -EAGAIN and may wait. */
  function Retry(queue: seq<Notification>, size: nat, flags: Flags, own: AssocId, subscribed: Subscription,
                 ok: bool, errors: map<AssocId, int>): Received
    requires ErrorCodes(errors)
    decreases |queue|
  {
    var p := Pass(queue, size, flags, own, subscribed, ok, errors);
    if p.result == -EAGAIN && !p.flags.dontWait && !p.blocked then
      var rest := Retry(p.left, size, p.flags, own, subscribed, ok, errors);
      rest.(accounted := p.accounted + rest.accounted)
    else p
  }

  /** getErrorCode knows two errors. */
  ghost predicate ErrorCodes(errors: map<AssocId, int>) {
    forall a :: a in errors ==> errors[a] in {-ECONNRESET, -ECONNABORTED}
  }

  /** A later outcome, seen together with drops accounted for before it. */
  function After(done: seq<AssocId>, p: Received): Received {
    p.(accounted := done + p.accounted)
  }

  /** A pass that asks for another try has dropped a record. */
  lemma AgainDrops(queue: seq<Notification>, size: nat, flags: Flags, own: AssocId,
                   subscribed: Subscription, ok: bool, errors: map<AssocId, int>)
    requires ErrorCodes(errors)
    ensures var p := Pass(queue, size, flags, own, subscribed, ok, errors);
            p.result == -EAGAIN && !p.flags.dontWait && !p.blocked ==> |p.left| < |queue|
  {
    if queue != [] && size > 0 {
      var r := ReceiveHead(queue[0], size, flags, subscribed, ok, ErrorOf(errors, queue[0].assoc));
      assert r.head.Some? ==> r.result >= 0;
      assert r.head.None? ==> |QueueAfter(queue, r)| == |queue| - 1;
    }
  }

  lemma RetryStep(done: seq<AssocId>, queue: seq<Notification>, size: nat, flags: Flags, own: AssocId,
                  subscribed: Subscription, ok: bool, errors: map<AssocId, int>)
    requires ErrorCodes(errors)
    ensures var p := Pass(queue, size, flags, own, subscribed, ok, errors);
            && (p.result == -EAGAIN && !p.flags.dontWait && !p.blocked ==> |p.left| < |queue|)
            && After(done, Retry(queue, size, flags, own, subscribed, ok, errors))
            == if p.result == -EAGAIN && !p.flags.dontWait && !p.blocked
               then After(done + p.accounted, Retry(p.left, size, p.flags, own, subscribed, ok, errors))
               else After(done, p)
  {
    AgainDrops(queue, size, flags, own, subscribed, ok, errors);
    var p := Pass(queue, size, flags, own, subscribed, ok, errors);
    if p.result == -EAGAIN && !p.flags.dontWait && !p.blocked {
      Associative(done, p.accounted, Retry(p.left, size, p.flags, own, subscribed, ok, errors).accounted);
    }
  }

  method ReceiveMessage(queue: NotificationQueue.Queue, size: nat, flagsIn: Flags, own: AssocId,
                        subscribed: Subscription, ok: bool, errors: map<AssocId, int>)
    returns (result: int, chunk: seq<Byte>, flags: Flags, blocked: bool, accounted: seq<AssocId>)
    requires queue.Valid() && ErrorCodes(errors)
    modifies queue, queue.spine
    ensures queue.Valid()
    ensures Received(result, chunk, flags, blocked, accounted, queue.contents)
            == After([], Retry(old(queue.contents), size, flagsIn, own, subscribed, ok, errors))
    ensures |chunk| <= size && (result >= 0 ==> result == |chunk|)
  {
    flags, accounted, chunk, blocked, result := flagsIn, [], [], false, 0;
    ghost var goal := After([], Retry(queue.contents, size, flagsIn, own, subscribed, ok, errors));
    var again := true;
    while again
      invariant queue.Valid()
      invariant forall i :: 0 <= i < |queue.spine| ==> queue.spine[i] in old(queue.spine)
      invariant |chunk| <= size && (result >= 0 ==> result == |chunk|)
      invariant again ==> goal == After(accounted, Retry(queue.contents, size, flags, own, subscribed, ok, errors))
      invariant !again ==> goal == Received(result, chunk, flags, blocked, accounted, queue.contents)
      decreases again, |queue.contents|
    {
      RetryStep(accounted, queue.contents, size, flags, own, subscribed, ok, errors);
      ghost var p := Pass(queue.contents, size, flags, own, subscribed, ok, errors);
      var charged;
      result, chunk, flags, blocked, charged := InternalReceive(queue, size, flags, own, subscribed, ok, errors);
      accounted := accounted + charged;
      again := result == -EAGAIN && !flags.dontWait && !blocked;
      assert p == Received(result, chunk, flags, blocked, charged, queue.contents);
    }
  }

  /**
    * With notifications off, the loop drops exactly the events before the first record that stops
    * it, accounts each drop once to the association named, and returns what that record gives; it
    * waits only once the queue is empty.
    */
  lemma {:induction false} RetryFindsData(queue: seq<Notification>, size: nat, flags: Flags, own: AssocId,
                                          subscribed: Subscription, ok: bool, errors: map<AssocId, int>)
    requires size > 0 && !flags.notification && !flags.dontWait
    requires ErrorCodes(errors)
    ensures var k := FirstStop(queue, errors);
            var last := Pass(queue[k..], size, flags, own, subscribed, ok, errors);
            Retry(queue, size, flags, own, subscribed, ok, errors)
            == last.(accounted := Names(queue, k) + last.accounted)
    decreases |queue|
  {
    if queue == [] || Stops(queue[0], errors) {
      assert queue[0..] == queue;
      StopHere(queue, size, flags, own, subscribed, ok, errors);
    } else {
      var k := FirstStop(queue, errors);
      var rest := Retry(queue[1..], size, flags, own, subscribed, ok, errors);
      var last := Pass(queue[k..], size, flags, own, subscribed, ok, errors);
      assert rest == last.(accounted := Names(queue[1..], k - 1) + last.accounted) by {
        RetryFindsData(queue[1..], size, flags, own, subscribed, ok, errors);
        assert queue[1..][k - 1..] == queue[k..];
      }
      SkipEvent(queue, size, flags, own, subscribed, ok, errors);
      SkippedFirst(queue, k, Retry(queue, size, flags, own, subscribed, ok, errors), rest, last);
    }
  }

  /** One more drop in front is one more association charged in front. */
  lemma SkippedFirst(queue: seq<Notification>, k: nat, all: Received, rest: Received, last: Received)
    requires 0 < k <= |queue|
    requires rest == last.(accounted := Names(queue[1..], k - 1) + last.accounted)
    requires all == rest.(accounted := [queue[0].assoc] + rest.accounted)
    ensures all == last.(accounted := Names(queue, k) + last.accounted)
  {
    NamesCons(queue, k);
    Associative([queue[0].assoc], Names(queue[1..], k - 1), last.accounted);
  }

  lemma StopHere(queue: seq<Notification>, size: nat, flags: Flags, own: AssocId,
                 subscribed: Subscription, ok: bool, errors: map<AssocId, int>)
    requires size > 0 && !flags.notification && !flags.dontWait && ErrorCodes(errors)
    requires queue == [] || Stops(queue[0], errors)
    ensures Retry(queue, size, flags, own, subscribed, ok, errors)
            == Pass(queue, size, flags, own, subscribed, ok, errors)
  {
    assert Pass(queue, size, flags, own, subscribed, ok, errors).blocked
           || Pass(queue, size, flags, own, subscribed, ok, errors).result != -EAGAIN;
  }

  lemma Associative(a: seq<AssocId>, b: seq<AssocId>, c: seq<AssocId>)
    ensures a + (b + c) == (a + b) + c
  {
  }

  lemma NamesCons(queue: seq<Notification>, k: nat)
    requires 0 < k <= |queue|
    ensures Names(queue, k) == [queue[0].assoc] + Names(queue[1..], k - 1)
  {
  }

  /** An event without a recorded error is dropped, accounted for and followed by another try. */
  lemma SkipEvent(queue: seq<Notification>, size: nat, flags: Flags, own: AssocId,
                  subscribed: Subscription, ok: bool, errors: map<AssocId, int>)
    requires size > 0 && !flags.notification && !flags.dontWait && ErrorCodes(errors)
    requires queue != [] && !Stops(queue[0], errors)
    ensures var rest := Retry(queue[1..], size, flags, own, subscribed, ok, errors);
            Retry(queue, size, flags, own, subscribed, ok, errors)
            == rest.(accounted := [queue[0].assoc] + rest.accounted)
  {
    var p := Pass(queue, size, flags, own, subscribed, ok, errors);
    assert p == Received(-EAGAIN, [], flags, false, [queue[0].assoc], queue[1..]);
  }

  /** So with no error recorded, the first data record is what comes out. */
  lemma FirstDataComesOut(queue: seq<Notification>, k: nat, size: nat, flags: Flags, own: AssocId,
                          subscribed: Subscription)
    requires NonEmptyData(queue) && size > 0
    requires !flags.notification && !flags.dontWait && !flags.peek
    requires k < |queue| && queue[k].kind == DataArrive
    requires forall i :: 0 <= i < k ==> queue[i].kind != DataArrive
    ensures var t := Retry(queue, size, flags, own, subscribed, true, map[]);
            var n := queue[k];
            && !t.blocked && t.result == Min(|n.unread|, size)
            && t.chunk == n.unread[..t.result]
            && t.left == (if t.result < |n.unread| then [n.(unread := n.unread[t.result..])] else []) + queue[k + 1..]
            && t.accounted == Names(queue, k) + (if t.result < |n.unread| then [] else [n.assoc])
  {
    FirstStopIs(queue, k);
    RetryFindsData(queue, size, flags, own, subscribed, true, map[]);
    var rest := queue[k..];
    assert rest[0] == queue[k] && rest[1..] == queue[k + 1..];
    var n := queue[k];
    if size < |n.unread| {
      var n' := n.(unread := n.unread[size..]);
      assert rest[0 := n'] == [n'] + rest[1..];
    }
  }

  lemma FirstStopIs(queue: seq<Notification>, k: nat)
    requires k < |queue| && queue[k].kind == DataArrive
    requires forall i :: 0 <= i < k ==> queue[i].kind != DataArrive
    ensures FirstStop(queue, map[]) == k
  {
    var j := FirstStop(queue, map[]);
    assert Stops(queue[k], map[]);
    assert j >= k;
  }
}
