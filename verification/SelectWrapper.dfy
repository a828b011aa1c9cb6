/** select_wrapper: translating descriptor sets to system descriptors for select() and back. */
module SelectWrapper {
  import opened Basics
  import opened Descriptors

  /** An fd_set pointer. */
  datatype FdSet = Null | Set(fds: set<nat>)

  /** SAFE_FD_ISSET. */
  predicate IsSet(fd: nat, s: FdSet) {
    s.Set? && fd in s.fds
  }

  predicate SystemSlot(table: seq<Descriptor>, i: nat) {
    i < |table| && table[i].System? && table[i].fd >= 0
  }

  /** An unbound UDP-like SCTP socket, which is always writable. */
  predicate UdpSlot(table: seq<Descriptor>, i: nat) {
    i < |table| && table[i].Sctp? && !table[i].connectionOriented
  }

  predicate WellFormed(table: seq<Descriptor>) {
    |table| == FD_SETSIZE && forall i :: 0 <= i < |table| && table[i].System? ==> 0 <= table[i].fd < FD_SETSIZE
  }

  /** Different requested slots have different system descriptors. */
  ghost predicate Injective(table: seq<Descriptor>, requested: set<nat>) {
    forall i, j :: i in requested && j in requested && SystemSlot(table, i) && SystemSlot(table, j) && i != j ==>
      table[i].fd != table[j].fd
  }

  /** A null pointer reads as the empty set. */
  function All(r: FdSet): set<nat> {
    if r.Null? then {} else r.fds
  }

  /** The system descriptors of some slots. */
  function Mapped(table: seq<Descriptor>, slots: set<nat>): set<nat> {
    set i | i in slots && SystemSlot(table, i) :: table[i].fd
  }

  /** The requested slots whose system descriptor is ready. */
  function ReadySlots(table: seq<Descriptor>, slots: set<nat>, ready: set<nat>): set<nat> {
    set i | i in slots && SystemSlot(table, i) && table[i].fd in ready
  }

  function UdpSlots(table: seq<Descriptor>, slots: set<nat>): set<nat> {
    set i | i in slots && UdpSlot(table, i)
  }

  /** What the kernel's select finds ready, or its error. */
  datatype Kernel = Kernel(read: set<nat>, write: set<nat>, except: set<nat>, error: int)

  ghost predicate Below(s: FdSet, n: nat) {
    forall i <- All(s) :: i < n
  }

  function UpTo(slots: set<nat>, n: nat): set<nat> {
    set i | i in slots && i < n
  }

  /** The way back from system descriptors to the first `n` requested slots. */
  ghost predicate Inverse(table: seq<Descriptor>, requested: set<nat>, back: map<nat, nat>) {
    && (forall i <- requested :: SystemSlot(table, i) ==> table[i].fd in back && back[table[i].fd] == i)
    && (forall fd <- back :: back[fd] in requested && SystemSlot(table, back[fd]) && table[back[fd]].fd == fd)
  }

  lemma UpToStep(slots: set<nat>, i: nat)
    ensures UpTo(slots, i + 1) == UpTo(slots, i) + if i in slots then {i} else {}
  {
  }

  lemma MappedStep(table: seq<Descriptor>, slots: set<nat>, i: nat)
    ensures Mapped(table, slots + {i}) == Mapped(table, slots) + if SystemSlot(table, i) then {table[i].fd as nat} else {}
  {
  }

  lemma InverseStep(table: seq<Descriptor>, all: set<nat>, slots: set<nat>, back: map<nat, nat>, i: nat)
    requires Inverse(table, slots, back) && Injective(table, all) && slots <= all && i in all && i !in slots
    ensures if SystemSlot(table, i) then Inverse(table, slots + {i}, back[table[i].fd := i])
            else Inverse(table, slots + {i}, back)
  {
    if SystemSlot(table, i) {
      forall j <- slots | SystemSlot(table, j) ensures table[j].fd != table[i].fd {
        assert i in all && j in all;
      }
    }
  }

  /** What the first loop has built. */
  datatype Translation = Translation(r: set<nat>, w: set<nat>, e: set<nat>, back: map<nat, nat>, maxFd: nat, polled: bool)

  /** The slots that some set asks for. */
  function Requested(readIn: FdSet, writeIn: FdSet, exceptIn: FdSet): set<nat> {
    All(readIn) + All(writeIn) + All(exceptIn)
  }

  function AddSlot(t: Translation, i: nat, readIn: FdSet, writeIn: FdSet, exceptIn: FdSet, table: seq<Descriptor>): Translation {
    if !(i in Requested(readIn, writeIn, exceptIn)) then t
    else if SystemSlot(table, i) then
      var fd := table[i].fd;
      Translation(if IsSet(i, readIn) then t.r + {fd} else t.r,
                  if IsSet(i, writeIn) then t.w + {fd} else t.w,
                  if IsSet(i, exceptIn) then t.e + {fd} else t.e,
                  t.back[fd := i], if fd > t.maxFd then fd else t.maxFd, t.polled)
    else if UdpSlot(table, i) then t.(polled := true)
    else t
  }

  function FirstSlots(n: nat, readIn: FdSet, writeIn: FdSet, exceptIn: FdSet, table: seq<Descriptor>): Translation {
    if n == 0 then Translation({}, {}, {}, map[], 0, false)
    else AddSlot(FirstSlots(n - 1, readIn, writeIn, exceptIn, table), n - 1, readIn, writeIn, exceptIn, table)
  }

  /** The first loop. */
  method Translate(n: nat, readIn: FdSet, writeIn: FdSet, exceptIn: FdSet, table: seq<Descriptor>) returns (t: Translation)
    requires WellFormed(table) && n <= FD_SETSIZE
    ensures t == FirstSlots(n, readIn, writeIn, exceptIn, table)
  {
    t := Translation({}, {}, {}, map[], 0, false);
    for i := 0 to n
      invariant t == FirstSlots(i, readIn, writeIn, exceptIn, table)
    {
      if IsSet(i, readIn) || IsSet(i, writeIn) || IsSet(i, exceptIn) {
        match table[i] {
          case System(fd) =>
            if fd > t.maxFd { t := t.(maxFd := fd); }
            if IsSet(i, readIn) { t := t.(r := t.r + {fd}); }
            if IsSet(i, writeIn) { t := t.(w := t.w + {fd}); }
            if IsSet(i, exceptIn) { t := t.(e := t.e + {fd}); }
            t := t.(back := t.back[fd := i]);
          case Sctp(_, _, connectionOriented, _) =>
            if !connectionOriented { t := t.(polled := true); }
          case Invalid =>
        }
      }
    }
  }

  /** The kernel's sets are exactly the system descriptors of the requested slots. */
  lemma {:induction false} KernelSets(n: nat, readIn: FdSet, writeIn: FdSet, exceptIn: FdSet, table: seq<Descriptor>)
    requires n <= |table|
    ensures var t := FirstSlots(n, readIn, writeIn, exceptIn, table);
            && t.r == Mapped(table, UpTo(All(readIn), n))
            && t.w == Mapped(table, UpTo(All(writeIn), n))
            && t.e == Mapped(table, UpTo(All(exceptIn), n))
  {
    if n > 0 {
      var i := n - 1;
      KernelSets(i, readIn, writeIn, exceptIn, table);
      AddSlotAdds(FirstSlots(i, readIn, writeIn, exceptIn, table), i, readIn, writeIn, exceptIn, table);
      MappedUpTo(table, All(readIn), i);
      MappedUpTo(table, All(writeIn), i);
      MappedUpTo(table, All(exceptIn), i);
    }
  }

  /** One more slot of a set. */
  function AddFd(system: set<nat>, table: seq<Descriptor>, slots: set<nat>, i: nat): set<nat> {
    if i in slots && SystemSlot(table, i) then system + {table[i].fd} else system
  }

  lemma AddSlotAdds(t: Translation, i: nat, readIn: FdSet, writeIn: FdSet, exceptIn: FdSet, table: seq<Descriptor>)
    ensures var u := AddSlot(t, i, readIn, writeIn, exceptIn, table);
            && u.r == AddFd(t.r, table, All(readIn), i)
            && u.w == AddFd(t.w, table, All(writeIn), i)
            && u.e == AddFd(t.e, table, All(exceptIn), i)
  {
  }

  lemma MappedUpTo(table: seq<Descriptor>, slots: set<nat>, i: nat)
    requires i < |table|
    ensures Mapped(table, UpTo(slots, i + 1)) == AddFd(Mapped(table, UpTo(slots, i)), table, slots, i)
  {
    TranslateStep(table, slots, i);
  }

  /** The reverse map leads back to the slots. */
  lemma {:induction false} WayBack(n: nat, readIn: FdSet, writeIn: FdSet, exceptIn: FdSet, table: seq<Descriptor>)
    requires n <= |table| && Injective(table, UpTo(Requested(readIn, writeIn, exceptIn), n))
    ensures Inverse(table, UpTo(Requested(readIn, writeIn, exceptIn), n),
                    FirstSlots(n, readIn, writeIn, exceptIn, table).back)
  {
    if n > 0 {
      var all := Requested(readIn, writeIn, exceptIn);
      var slots := UpTo(all, n - 1);
      UpToStep(all, n - 1);
      assert slots <= UpTo(all, n) && n - 1 !in slots;
      WayBack(n - 1, readIn, writeIn, exceptIn, table);
      if n - 1 in all {
        InverseStep(table, UpTo(all, n), slots, FirstSlots(n - 1, readIn, writeIn, exceptIn, table).back, n - 1);
      }
    }
  }

  /** No descriptor is above maxFd, and UDP-like sockets are noticed. */
  lemma {:induction false} Limits(n: nat, readIn: FdSet, writeIn: FdSet, exceptIn: FdSet, table: seq<Descriptor>)
    requires n <= |table|
    ensures var t := FirstSlots(n, readIn, writeIn, exceptIn, table);
            && (forall fd <- t.back :: fd <= t.maxFd)
            && (t.polled <==> UdpSlots(table, UpTo(Requested(readIn, writeIn, exceptIn), n)) != {})
  {
    if n > 0 {
      Limits(n - 1, readIn, writeIn, exceptIn, table);
      TranslateStep(table, Requested(readIn, writeIn, exceptIn), n - 1);
    }
  }

  lemma TranslateStep(table: seq<Descriptor>, slots: set<nat>, i: nat)
    requires i < |table|
    ensures UpTo(slots, i + 1) == UpTo(slots, i) + if i in slots then {i} else {}
    ensures Mapped(table, UpTo(slots, i + 1))
            == Mapped(table, UpTo(slots, i)) + if i in slots && SystemSlot(table, i) then {table[i].fd as nat} else {}
    ensures UdpSlots(table, UpTo(slots, i + 1))
            == UdpSlots(table, UpTo(slots, i)) + if i in slots && UdpSlot(table, i) then {i} else {}
  {
    UpToStep(slots, i);
    if i in slots {
      MappedStep(table, UpTo(slots, i), i);
    }
  }

  /** Of the write set, the UDP-like sockets stay, and each counts. */
  method KeepUdp(writeIn: set<nat>, table: seq<Descriptor>) returns (kept: set<nat>, count: nat)
    requires WellFormed(table) && forall i <- writeIn :: i < FD_SETSIZE
    ensures kept == UdpSlots(table, writeIn) && count == |kept|
  {
    kept, count := writeIn, 0;
    ghost var counted: set<nat> := {};
    for i := 0 to FD_SETSIZE
      invariant forall k :: k in kept <==> k in writeIn && (k < i ==> UdpSlot(table, k))
      invariant count == |counted| && forall k :: k in counted <==> k in writeIn && k < i && UdpSlot(table, k)
    {
      if i in kept {
        if table[i].Sctp? && !table[i].connectionOriented {
          count := count + 1;
          counted := counted + {i};
        } else {
          kept := kept - {i};
        }
      }
    }
    assert counted == kept;
  }

  /** The slots that some ready system descriptors lead back to. */
  function Back(system: set<nat>, back: map<nat, nat>): set<nat> {
    set fd | fd in system && fd in back :: back[fd]
  }

  lemma BackIsReady(table: seq<Descriptor>, requested: set<nat>, slots: set<nat>, ready: set<nat>, back: map<nat, nat>)
    requires Inverse(table, requested, back) && slots <= requested
    ensures Back(Mapped(table, slots) * ready, back) == ReadySlots(table, slots, ready)
  {
    var system := Mapped(table, slots) * ready;
    forall i | i in ReadySlots(table, slots, ready) ensures i in Back(system, back) {
      assert table[i].fd in system && back[table[i].fd] == i;
    }
    forall i | i in Back(system, back) ensures i in ReadySlots(table, slots, ready) {
      var fd :| fd in system && fd in back && back[fd] == i;
      var j :| j in slots && SystemSlot(table, j) && table[j].fd == fd;
      assert back[table[j].fd] == j;
    }
  }

  lemma {:induction false} SameSize(table: seq<Descriptor>, slots: set<nat>, ready: set<nat>)
    requires Injective(table, slots)
    ensures |ReadySlots(table, slots, ready)| == |Mapped(table, slots) * ready|
    decreases slots
  {
    if slots == {} {
      assert ReadySlots(table, slots, ready) == {} && Mapped(table, slots) == {};
    } else {
      var i :| i in slots;
      var rest := slots - {i};
      SameSize(table, rest, ready);
      assert rest + {i} == slots;
      SizeStep(table, rest, i, ready);
    }
  }

  lemma SizeStep(table: seq<Descriptor>, rest: set<nat>, i: nat, ready: set<nat>)
    requires Injective(table, rest + {i}) && i !in rest
    requires |ReadySlots(table, rest, ready)| == |Mapped(table, rest) * ready|
    ensures |ReadySlots(table, rest + {i}, ready)| == |Mapped(table, rest + {i}) * ready|
  {
    ReadyStep(table, rest, i, ready);
    MappedStep(table, rest, i);
    if SystemSlot(table, i) {
      FreshFd(table, rest, i);
      ReadyFd(Mapped(table, rest), table[i].fd, ready);
      if table[i].fd in ready {
        OneMore(ReadySlots(table, rest, ready), i);
        OneMore(Mapped(table, rest) * ready, table[i].fd);
      }
    }
  }

  lemma OneMore(s: set<nat>, x: nat)
    requires x !in s
    ensures |s + {x}| == |s| + 1
  {
  }

  lemma ReadyStep(table: seq<Descriptor>, slots: set<nat>, i: nat, ready: set<nat>)
    ensures ReadySlots(table, slots + {i}, ready)
            == ReadySlots(table, slots, ready) + if SystemSlot(table, i) && table[i].fd in ready then {i} else {}
  {
  }

  lemma FreshFd(table: seq<Descriptor>, slots: set<nat>, i: nat)
    requires Injective(table, slots + {i}) && i !in slots && SystemSlot(table, i)
    ensures table[i].fd !in Mapped(table, slots)
  {
  }

  lemma ReadyFd(system: set<nat>, fd: nat, ready: set<nat>)
    ensures (system + {fd}) * ready == system * ready + if fd in ready then {fd} else {}
  {
  }

  /** No descriptor is above maxFd, and each leads back to a slot. */
  predicate AllMapped(system: set<nat>, back: map<nat, nat>, maxFd: nat) {
    forall fd <- system :: fd <= maxFd && fd in back
  }

  /** The last loop: each ready system descriptor is set as its slot. */
  method MapBack(r: set<nat>, w: set<nat>, e: set<nat>, kept: set<nat>, back: map<nat, nat>, maxFd: nat)
    returns (read: set<nat>, write: set<nat>, except: set<nat>)
    requires AllMapped(r + w + e, back, maxFd)
    ensures read == Back(r, back) && write == Back(w, back) + kept && except == Back(e, back)
  {
    read, write, except := {}, kept, {};
    for i := 0 to maxFd + 1
      invariant read == Back(UpTo(r, i), back)
      invariant write == Back(UpTo(w, i), back) + kept
      invariant except == Back(UpTo(e, i), back)
    {
      BackStep(r, i, back);
      BackStep(w, i, back);
      BackStep(e, i, back);
      if i in r { read := read + {back[i]}; }
      if i in w { write := write + {back[i]}; }
      if i in e { except := except + {back[i]}; }
    }
    assert UpTo(r, maxFd + 1) == r && UpTo(w, maxFd + 1) == w && UpTo(e, maxFd + 1) == e;
  }

  lemma BackStep(system: set<nat>, i: nat, back: map<nat, nat>)
    requires i in system ==> i in back
    ensures Back(UpTo(system, i + 1), back) == Back(UpTo(system, i), back) + if i in system then {back[i]} else {}
  {
    UpToStep(system, i);
  }

  /** The bits of a set that select_wrapper passes on. */
  function Asked(s: FdSet, n: nat): set<nat> {
    UpTo(All(s), Min(n, FD_SETSIZE))
  }

  /** UDP-like sockets that stay in the write set: those it holds at all, if the wait was cut short. */
  function Writable(s: FdSet, polled: bool, table: seq<Descriptor>): set<nat> {
    if polled then UdpSlots(table, All(s)) else {}
  }

  /**
    * select_wrapper.  Each set comes back as exactly the slots below `n` that were asked for and whose
    * system descriptor is ready; the write set also with its UDP-like SCTP sockets, even those that are
    * not below `n`, if such a socket was asked for below `n`.  The result is the total number of bits
    * set.  When the kernel fails, the sets come back unchanged.
    */
  method Select(n: nat, readIn: FdSet, writeIn: FdSet, exceptIn: FdSet, table: seq<Descriptor>, kernel: Kernel)
    returns (result: int, readOut: FdSet, writeOut: FdSet, exceptOut: FdSet, polled: bool)
    requires WellFormed(table) && kernel.error <= 0 && Below(writeIn, FD_SETSIZE)
    requires Injective(table, Asked(readIn, n) + Asked(writeIn, n) + Asked(exceptIn, n))
    ensures polled <==> UdpSlots(table, Asked(readIn, n) + Asked(writeIn, n) + Asked(exceptIn, n)) != {}
    ensures (readOut.Null? <==> readIn.Null?) && (writeOut.Null? <==> writeIn.Null?) && (exceptOut.Null? <==> exceptIn.Null?)
    ensures kernel.error < 0 ==>
              result == kernel.error && readOut == readIn && writeOut == writeIn && exceptOut == exceptIn
    ensures kernel.error == 0 ==>
              && All(readOut) == ReadySlots(table, Asked(readIn, n), kernel.read)
              && All(writeOut) == ReadySlots(table, Asked(writeIn, n), kernel.write) + Writable(writeIn, polled, table)
              && All(exceptOut) == ReadySlots(table, Asked(exceptIn, n), kernel.except)
              && result == |All(readOut)| + |All(writeOut)| + |All(exceptOut)|
    ensures kernel.error == 0 ==>
              && (forall i :: i in All(readOut) <==> ReadyIn(readIn, n, table, kernel.read, i))
              && (forall i :: i in All(writeOut) <==>
                    ReadyIn(writeIn, n, table, kernel.write, i) || (AlwaysWritable(writeIn, table, i)
                      && exists j :: Watches(readIn, n, table, j) || Watches(writeIn, n, table, j) || Watches(exceptIn, n, table, j)))
              && (forall i :: i in All(exceptOut) <==> ReadyIn(exceptIn, n, table, kernel.except, i))
  {
    var t := Translate(Min(n, FD_SETSIZE), readIn, writeIn, exceptIn, table);
    polled := t.polled;
    TranslationIs(n, readIn, writeIn, exceptIn, table);
    readOut, writeOut, exceptOut := readIn, writeIn, exceptIn;
    if kernel.error < 0 {
      result := kernel.error;
      return;
    }
    var kept, count := KeepWritable(writeIn, polled, table);
    AllReturned(t, readIn, writeIn, exceptIn, n, table, kernel, kept);
    var read, write, except;
    result, read, write, except := Report(t, kept, count, kernel, ReadySlots(table, Asked(readIn, n), kernel.read),
                                          ReadySlots(table, Asked(writeIn, n), kernel.write),
                                          ReadySlots(table, Asked(exceptIn, n), kernel.except));
    NoSlots(table, kernel.read, n);
    NoSlots(table, kernel.write, n);
    NoSlots(table, kernel.except, n);
    ReadyByTable(readIn, n, table, kernel.read);
    ReadyByTable(writeIn, n, table, kernel.write);
    ReadyByTable(exceptIn, n, table, kernel.except);
    WritableByTable(readIn, writeIn, exceptIn, n, table, polled);
    if readIn.Set? { readOut := Set(read); }
    if writeIn.Set? { writeOut := Set(write); }
    if exceptIn.Set? { exceptOut := Set(except); }
  }

  /** The slot is asked for among the first `n`, and its system descriptor is ready. */
  predicate ReadyIn(s: FdSet, n: nat, table: seq<Descriptor>, ready: set<nat>, i: nat) {
    && s.Set? && i in s.fds && i < n && i < FD_SETSIZE
    && i < |table| && table[i].System? && table[i].fd in ready
  }

  /** The slot is asked for among the first `n`, and is an unbound UDP-like SCTP socket. */
  predicate Watches(s: FdSet, n: nat, table: seq<Descriptor>, i: nat) {
    && s.Set? && i in s.fds && i < n && i < FD_SETSIZE
    && i < |table| && table[i].Sctp? && !table[i].connectionOriented
  }

  /** The slot is asked for at all, and is an unbound UDP-like SCTP socket. */
  predicate AlwaysWritable(s: FdSet, table: seq<Descriptor>, i: nat) {
    s.Set? && i in s.fds && i < |table| && table[i].Sctp? && !table[i].connectionOriented
  }

  lemma ReadyByTable(s: FdSet, n: nat, table: seq<Descriptor>, ready: set<nat>)
    requires WellFormed(table)
    ensures forall i :: i in ReadySlots(table, Asked(s, n), ready) <==> ReadyIn(s, n, table, ready, i)
  {
  }

  lemma WritableByTable(readIn: FdSet, writeIn: FdSet, exceptIn: FdSet, n: nat, table: seq<Descriptor>, polled: bool)
    requires WellFormed(table)
    requires polled <==> UdpSlots(table, Asked(readIn, n) + Asked(writeIn, n) + Asked(exceptIn, n)) != {}
    ensures polled <==> exists j :: Watches(readIn, n, table, j) || Watches(writeIn, n, table, j) || Watches(exceptIn, n, table, j)
    ensures forall i :: i in Writable(writeIn, polled, table) <==> polled && AlwaysWritable(writeIn, table, i)
  {
    if polled {
      var j :| j in UdpSlots(table, Asked(readIn, n) + Asked(writeIn, n) + Asked(exceptIn, n));
      assert Watches(readIn, n, table, j) || Watches(writeIn, n, table, j) || Watches(exceptIn, n, table, j);
    }
    if j :| Watches(readIn, n, table, j) || Watches(writeIn, n, table, j) || Watches(exceptIn, n, table, j) {
      assert j in UdpSlots(table, Asked(readIn, n) + Asked(writeIn, n) + Asked(exceptIn, n));
    }
  }

  /** What the first loop leaves. */
  ghost predicate Translated(t: Translation, readIn: FdSet, writeIn: FdSet, exceptIn: FdSet, n: nat, table: seq<Descriptor>) {
    var all := Asked(readIn, n) + Asked(writeIn, n) + Asked(exceptIn, n);
    && t.r == Mapped(table, Asked(readIn, n)) && t.w == Mapped(table, Asked(writeIn, n)) && t.e == Mapped(table, Asked(exceptIn, n))
    && Inverse(table, all, t.back)
    && AllMapped(t.r + t.w + t.e, t.back, t.maxFd)
    && (t.polled <==> UdpSlots(table, all) != {})
  }

  /** What a set comes back as, and how many bits it then has. */
  ghost predicate Returned(system: set<nat>, back: map<nat, nat>, kept: set<nat>, slots: set<nat>) {
    Back(system, back) == slots && |slots + kept| == |system| + |kept|
  }

  /** The part after a successful select(). */
  method Report(t: Translation, kept: set<nat>, count: nat, kernel: Kernel, ghost rd: set<nat>, ghost wr: set<nat>, ghost ex: set<nat>)
    returns (result: nat, read: set<nat>, write: set<nat>, except: set<nat>)
    requires count == |kept| && AllMapped(t.r + t.w + t.e, t.back, t.maxFd)
    requires Returned(t.r * kernel.read, t.back, {}, rd)
    requires Returned(t.w * kernel.write, t.back, kept, wr)
    requires Returned(t.e * kernel.except, t.back, {}, ex)
    ensures read == rd && write == wr + kept && except == ex
    ensures result == |read| + |write| + |except|
  {
    var r, w, e := t.r * kernel.read, t.w * kernel.write, t.e * kernel.except;
    NoneKept(r, t.back, rd);
    NoneKept(e, t.back, ex);
    WithKept(w, t.back, kept, wr);
    result := |r| + |w| + |e| + count;
    read, write, except := MapBack(r, w, e, kept, t.back, t.maxFd);
  }

  lemma NoneKept(system: set<nat>, back: map<nat, nat>, slots: set<nat>)
    requires Returned(system, back, {}, slots)
    ensures Back(system, back) == slots && |slots| == |system|
  {
    assert slots + {} == slots;
  }

  lemma WithKept(system: set<nat>, back: map<nat, nat>, kept: set<nat>, slots: set<nat>)
    requires Returned(system, back, kept, slots)
    ensures Back(system, back) == slots && |slots + kept| == |system| + |kept|
  {
  }

  method KeepWritable(writeIn: FdSet, polled: bool, table: seq<Descriptor>) returns (kept: set<nat>, count: nat)
    requires WellFormed(table) && Below(writeIn, FD_SETSIZE)
    ensures kept == Writable(writeIn, polled, table) && count == |kept| && forall i <- kept :: UdpSlot(table, i)
  {
    kept, count := {}, 0;
    if polled {
      kept, count := KeepUdp(All(writeIn), table);
    }
  }

  lemma AllReturned(t: Translation, readIn: FdSet, writeIn: FdSet, exceptIn: FdSet, n: nat, table: seq<Descriptor>,
                    kernel: Kernel, kept: set<nat>)
    requires Injective(table, Asked(readIn, n) + Asked(writeIn, n) + Asked(exceptIn, n))
    requires Translated(t, readIn, writeIn, exceptIn, n, table) && forall i <- kept :: UdpSlot(table, i)
    ensures Returned(t.r * kernel.read, t.back, {}, ReadySlots(table, Asked(readIn, n), kernel.read))
    ensures Returned(t.w * kernel.write, t.back, kept, ReadySlots(table, Asked(writeIn, n), kernel.write))
    ensures Returned(t.e * kernel.except, t.back, {}, ReadySlots(table, Asked(exceptIn, n), kernel.except))
  {
    var all := Asked(readIn, n) + Asked(writeIn, n) + Asked(exceptIn, n);
    Counted(table, all, Asked(readIn, n), kernel.read, t.back, {});
    Counted(table, all, Asked(writeIn, n), kernel.write, t.back, kept);
    Counted(table, all, Asked(exceptIn, n), kernel.except, t.back, {});
  }

  lemma NoSlots(table: seq<Descriptor>, ready: set<nat>, n: nat)
    ensures Asked(Null, n) == {} && ReadySlots(table, {}, ready) == {} && UdpSlots(table, {}) == {}
  {
  }

  lemma TranslationIs(n: nat, readIn: FdSet, writeIn: FdSet, exceptIn: FdSet, table: seq<Descriptor>)
    requires |table| == FD_SETSIZE
    requires Injective(table, Asked(readIn, n) + Asked(writeIn, n) + Asked(exceptIn, n))
    ensures Translated(FirstSlots(Min(n, FD_SETSIZE), readIn, writeIn, exceptIn, table), readIn, writeIn, exceptIn, n, table)
  {
    var m := Min(n, FD_SETSIZE);
    var all := Asked(readIn, n) + Asked(writeIn, n) + Asked(exceptIn, n);
    assert UpTo(Requested(readIn, writeIn, exceptIn), m) == all;
    KernelSets(m, readIn, writeIn, exceptIn, table);
    WayBack(m, readIn, writeIn, exceptIn, table);
    Limits(m, readIn, writeIn, exceptIn, table);
    var t := FirstSlots(m, readIn, writeIn, exceptIn, table);
    forall fd <- t.r + t.w + t.e ensures fd <= t.maxFd && fd in t.back {
      var i :| i in all && SystemSlot(table, i) && table[i].fd == fd;
      assert table[i].fd in t.back;
    }
  }

  /** Mapping back the ready descriptors gives the ready slots, as many of them, and no UDP-like
      socket among them. */
  lemma {:induction false} Counted(table: seq<Descriptor>, all: set<nat>, slots: set<nat>, ready: set<nat>, back: map<nat, nat>,
                                   udp: set<nat>)
    requires Inverse(table, all, back) && slots <= all && Injective(table, all) && forall i <- udp :: UdpSlot(table, i)
    ensures Returned(Mapped(table, slots) * ready, back, udp, ReadySlots(table, slots, ready))
  {
    BackIsReady(table, all, slots, ready, back);
    SameSize(table, slots, ready);
    assert ReadySlots(table, slots, ready) !! udp;
  }
}
