/** The port scanner's state as a value: a bounded number of connection attempts at a time over a range
    of ports, what a pass of its loop does to them, and what every pass keeps. */
module PortBoard {

  /** One entry of the parallel arrays clientSocket, port and timeout. */
  datatype Slot = Slot(used: bool, port: nat, timeout: nat)

  /** What one pass of the loop meets: the time, the slots that select() finds ready, the ports whose
      test write succeeds, and whether the user breaks. */
  datatype Round = Round(now: nat, ready: set<nat>, writable: set<nat>, breakDetected: bool)

  function PortOf(s: Slot): multiset<nat> {
    if s.used then multiset{s.port} else multiset{}
  }

  /** The ports in the occupied slots. */
  function UsedPorts(slots: seq<Slot>): multiset<nat> {
    if slots == [] then multiset{} else UsedPorts(slots[..|slots| - 1]) + PortOf(slots[|slots| - 1])
  }

  /** Every port from `a` to before `b`, once. */
  function Range(a: nat, b: nat): multiset<nat> {
    if b <= a then multiset{} else Range(a, b - 1) + multiset{b - 1}
  }

  lemma {:induction false} UsedPortsUpdate(slots: seq<Slot>, i: nat, s: Slot)
    requires i < |slots|
    ensures UsedPorts(slots[i := s]) + PortOf(slots[i]) == UsedPorts(slots) + PortOf(s)
  {
    var n := |slots| - 1;
    var front, t := slots[..n], slots[i := s];
    if i == n {
      assert t[..n] == front;
      Shift(UsedPorts(front), UsedPorts(front), PortOf(s), PortOf(slots[i]), PortOf(s));
    } else {
      UsedPortsUpdate(front, i, s);
      assert t[..n] == front[i := s] && t[n] == slots[n];
      Shift(UsedPorts(front[i := s]), UsedPorts(front), PortOf(slots[n]), PortOf(slots[i]), PortOf(s));
    }
  }

  /** Multiset sums may be regrouped. */
  lemma Shift(x: multiset<nat>, y: multiset<nat>, c: multiset<nat>, a: multiset<nat>, b: multiset<nat>)
    ensures (x + c) + a == (x + a) + c && (y + c) + b == (y + b) + c && (x + c) + a == x + (c + a)
    ensures x + a == y + b ==> (x + c) + a == (y + c) + b
  {
  }

  lemma {:induction false} UsedPortsHas(slots: seq<Slot>, i: nat)
    requires i < |slots| && slots[i].used
    ensures slots[i].port in UsedPorts(slots)
  {
    if i < |slots| - 1 {
      UsedPortsHas(slots[..|slots| - 1], i);
    }
  }

  lemma {:induction false} UsedPortsSize(slots: seq<Slot>)
    ensures |UsedPorts(slots)| <= |slots|
  {
    if slots != [] {
      UsedPortsSize(slots[..|slots| - 1]);
    }
  }

  lemma {:induction false} NoUsedPorts(slots: seq<Slot>)
    requires forall i :: 0 <= i < |slots| ==> !slots[i].used
    ensures UsedPorts(slots) == multiset{}
  {
    if slots != [] {
      NoUsedPorts(slots[..|slots| - 1]);
    }
  }

  lemma {:induction false} RangeCounts(a: nat, b: nat, p: nat)
    ensures Range(a, b)[p] == if a <= p < b then 1 else 0
    decreases b
  {
    if a < b {
      RangeCounts(a, b - 1, p);
    }
  }

  /** The two slots of a port would count it twice. */
  lemma {:induction false} TwoSlotsCountTwice(slots: seq<Slot>, i: nat, j: nat)
    requires i < j < |slots| && slots[i].used && slots[j].used && slots[i].port == slots[j].port
    ensures UsedPorts(slots)[slots[i].port] >= 2
  {
    var n := |slots| - 1;
    if j == n {
      UsedPortsHas(slots[..n], i);
    } else {
      TwoSlotsCountTwice(slots[..n], i, j);
    }
  }

  // ----- The board: all the scanner's state as a value -----

  /** `running` counts the occupied slots, `finished` how often each port was finished, and `written`
      the ports whose test write succeeded. */
  datatype Board = Board(slots: seq<Slot>, next: nat, running: int, success: seq<bool>,
                         finished: multiset<nat>, written: set<nat>)

  /** A free slot gets the next port. */
  function FillSlot(b: Board, i: nat, endPort: nat, deadline: nat): (r: Board)
    requires i < |b.slots|
  {
    if !b.slots[i].used && b.next <= endPort then
      b.(slots := b.slots[i := Slot(true, b.next, deadline)], next := b.next + 1, running := b.running + 1)
    else b
  }

  /** The first i slots are filled, from the first on, while ports are left. */
  function FillTo(b: Board, i: nat, endPort: nat, deadline: nat): (r: Board)
    requires i <= |b.slots|
    ensures |r.slots| == |b.slots|
  {
    if i == 0 then b else FillSlot(FillTo(b, i - 1, endPort, deadline), i - 1, endPort, deadline)
  }

  /** An occupied slot's socket is deleted after a test write or a timeout. */
  function Freed(b: Board, i: nat, wrote: bool): (r: Board)
    requires i < |b.slots|
  {
    var p := b.slots[i].port;
    b.(slots := b.slots[i := b.slots[i].(used := false)],
       running := b.running - 1,
       success := if wrote && p < |b.success| then b.success[p := true] else b.success,
       finished := b.finished + multiset{p},
       written := if wrote then b.written + {p} else b.written)
  }

  /** A slot is probed if some slot was ready, and expires otherwise. */
  function TestSlot(b: Board, i: nat, hit: bool, round: Round): (r: Board)
    requires i < |b.slots|
  {
    var s := b.slots[i];
    if s.used && hit && i in round.ready then Freed(b, i, s.port in round.writable)
    else if s.used && !hit && s.timeout <= round.now then Freed(b, i, false)
    else b
  }

  function TestTo(b: Board, i: nat, hit: bool, round: Round): (r: Board)
    requires i <= |b.slots|
    ensures |r.slots| == |b.slots|
  {
    if i == 0 then b else TestSlot(TestTo(b, i - 1, hit, round), i - 1, hit, round)
  }

  /** select() finds an occupied slot ready. */
  predicate AnyReady(slots: seq<Slot>, round: Round) {
    exists i :: 0 <= i < |slots| && i in round.ready && slots[i].used
  }

  function Filled(b: Board, round: Round, endPort: nat, connectTimeout: nat): (r: Board)
    ensures |r.slots| == |b.slots|
  {
    FillTo(b, |b.slots|, endPort, connectTimeout + round.now)
  }

  function Tested(b: Board, round: Round): (r: Board)
    ensures |r.slots| == |b.slots|
  {
    TestTo(b, |b.slots|, AnyReady(b.slots, round), round)
  }

  function Passed(b: Board, round: Round, endPort: nat, connectTimeout: nat): (r: Board)
    ensures |r.slots| == |b.slots|
  {
    Tested(Filled(b, round, endPort, connectTimeout), round)
  }

  /** The first n passes of the loop. */
  function Passes(b: Board, rounds: seq<Round>, n: nat, endPort: nat, connectTimeout: nat): Board
    requires n <= |rounds|
  {
    if n == 0 then b
    else Passed(Passes(b, rounds, n - 1, endPort, connectTimeout), rounds[n - 1], endPort, connectTimeout)
  }

  /** All ports are handed out and nothing runs any more. */
  predicate Done(b: Board, endPort: nat) {
    !(b.next <= endPort || b.running > 0)
  }

  /** Nothing more is filled once the ports have run out. */
  lemma {:induction false} FillStops(b: Board, i: nat, endPort: nat, deadline: nat)
    requires i <= |b.slots| && FillTo(b, i, endPort, deadline).next > endPort
    ensures FillTo(b, |b.slots|, endPort, deadline) == FillTo(b, i, endPort, deadline)
    decreases |b.slots| - i
  {
    if i < |b.slots| {
      FillStops(b, i + 1, endPort, deadline);
    }
  }

  // ----- What every pass keeps -----

  /** Every port handed out so far is either in one slot or finished once, and `running` counts the
      occupied slots. */
  ghost predicate Ledger(b: Board, startPort: nat) {
    Balanced(UsedPorts(b.slots), b.finished, Range(startPort, b.next), b.running)
  }

  predicate Balanced(used: multiset<nat>, finished: multiset<nat>, handedOut: multiset<nat>, running: int) {
    used + finished == handedOut && running == |used|
  }

  lemma HandingOutBalances(used: multiset<nat>, finished: multiset<nat>, handedOut: multiset<nat>, running: int, p: nat)
    requires Balanced(used, finished, handedOut, running)
    ensures Balanced(used + multiset{p}, finished, handedOut + multiset{p}, running + 1)
  {
    Shift(used, multiset{}, multiset{p}, finished, multiset{});
  }

  lemma FinishingBalances(used: multiset<nat>, finished: multiset<nat>, handedOut: multiset<nat>, running: int, p: nat)
    requires Balanced(used + multiset{p}, finished, handedOut, running)
    ensures Balanced(used, finished + multiset{p}, handedOut, running - 1)
  {
    Shift(used, multiset{}, multiset{p}, finished, multiset{});
  }

  /** A port is marked exactly if its write succeeded, and written ports are finished. */
  ghost predicate Marked(b: Board) {
    && (forall p :: 0 <= p < |b.success| ==> (b.success[p] <==> p in b.written))
    && (forall p <- b.written :: p in b.finished)
  }

  ghost predicate Consistent(b: Board, startPort: nat, endPort: nat) {
    && startPort <= b.next <= endPort + 1 == |b.success|
    && Ledger(b, startPort)
    && Marked(b)
  }

  lemma FillSlotKeeps(b: Board, i: nat, startPort: nat, endPort: nat, deadline: nat)
    requires Consistent(b, startPort, endPort) && i < |b.slots|
    ensures Consistent(FillSlot(b, i, endPort, deadline), startPort, endPort)
  {
    if !b.slots[i].used && b.next <= endPort {
      HandingOutKeeps(b, i, startPort, endPort, Slot(true, b.next, deadline));
    }
  }

  lemma HandingOutKeeps(b: Board, i: nat, startPort: nat, endPort: nat, s: Slot)
    requires Consistent(b, startPort, endPort) && b.next <= endPort && s == Slot(true, b.next, s.timeout)
    requires i < |b.slots| && !b.slots[i].used
    ensures Consistent(b.(slots := b.slots[i := s], next := b.next + 1, running := b.running + 1), startPort, endPort)
  {
    FilledLedger(b, i, startPort, s);
  }

  lemma FilledLedger(b: Board, i: nat, startPort: nat, s: Slot)
    requires Ledger(b, startPort) && startPort <= b.next == s.port && s.used && i < |b.slots| && !b.slots[i].used
    ensures Ledger(b.(slots := b.slots[i := s], next := b.next + 1, running := b.running + 1), startPort)
  {
    FilledPorts(b.slots, i, s);
    HandedOutLedger(b, b.slots[i := s], startPort);
  }

  lemma HandedOutLedger(b: Board, slots: seq<Slot>, startPort: nat)
    requires Ledger(b, startPort) && startPort <= b.next
    requires UsedPorts(slots) == UsedPorts(b.slots) + multiset{b.next}
    ensures Ledger(b.(slots := slots, next := b.next + 1, running := b.running + 1), startPort)
  {
    RangeGrows(startPort, b.next);
    HandingOutBalances(UsedPorts(b.slots), b.finished, Range(startPort, b.next), b.running, b.next);
  }

  lemma FilledPorts(slots: seq<Slot>, i: nat, s: Slot)
    requires i < |slots| && !slots[i].used && s.used
    ensures UsedPorts(slots[i := s]) == UsedPorts(slots) + multiset{s.port}
  {
    UsedPortsUpdate(slots, i, s);
  }

  lemma RangeGrows(a: nat, b: nat)
    requires a <= b
    ensures Range(a, b + 1) == Range(a, b) + multiset{b}
  {
  }

  /** The port in an occupied slot lies in the range and is not finished, so it was never written. */
  lemma Outstanding(b: Board, startPort: nat, endPort: nat, i: nat)
    requires Consistent(b, startPort, endPort) && i < |b.slots| && b.slots[i].used
    ensures startPort <= b.slots[i].port < b.next && b.slots[i].port !in b.finished && b.running > 0
  {
    UsedPortsHas(b.slots, i);
    RangeCounts(startPort, b.next, b.slots[i].port);
    assert (UsedPorts(b.slots) + b.finished)[b.slots[i].port] == Range(startPort, b.next)[b.slots[i].port];
  }

  lemma FreedLedger(b: Board, i: nat, wrote: bool, startPort: nat)
    requires Ledger(b, startPort) && i < |b.slots| && b.slots[i].used
    ensures Ledger(Freed(b, i, wrote), startPort)
  {
    var s := b.slots[i].(used := false);
    UsedPortsUpdate(b.slots, i, s);
    FinishingBalances(UsedPorts(b.slots[i := s]), b.finished, Range(startPort, b.next), b.running, b.slots[i].port);
  }

  lemma FreedMarks(b: Board, i: nat, wrote: bool)
    requires Marked(b) && i < |b.slots| && b.slots[i].port < |b.success|
    ensures Marked(Freed(b, i, wrote))
  {
  }

  lemma TestSlotKeeps(b: Board, i: nat, hit: bool, round: Round, startPort: nat, endPort: nat)
    requires Consistent(b, startPort, endPort) && i < |b.slots|
    ensures Consistent(TestSlot(b, i, hit, round), startPort, endPort)
  {
    if b.slots[i].used {
      FreedKeeps(b, i, true, startPort, endPort);
      FreedKeeps(b, i, false, startPort, endPort);
    }
  }

  lemma FreedKeeps(b: Board, i: nat, wrote: bool, startPort: nat, endPort: nat)
    requires Consistent(b, startPort, endPort) && i < |b.slots| && b.slots[i].used
    ensures Consistent(Freed(b, i, wrote), startPort, endPort)
  {
    Outstanding(b, startPort, endPort, i);
    FreedLedger(b, i, wrote, startPort);
    FreedMarks(b, i, wrote);
  }

  /** Whatever filling one slot keeps, filling the first i slots keeps. */
  lemma {:induction false} FillToInduction(b: Board, i: nat, endPort: nat, deadline: nat, P: Board -> bool)
    requires P(b) && i <= |b.slots|
    requires forall c, k: nat :: P(c) && k < |c.slots| ==> P(FillSlot(c, k, endPort, deadline))
    ensures P(FillTo(b, i, endPort, deadline))
  {
    if i > 0 {
      FillToInduction(b, i - 1, endPort, deadline, P);
    }
  }

  /** Whatever testing each slot keeps, testing the first i slots keeps. */
  lemma {:induction false} TestToInduction(b: Board, i: nat, hit: bool, round: Round, P: (nat, Board) -> bool)
    requires P(0, b) && i <= |b.slots|
    requires forall k: nat, c: Board {:trigger TestSlot(c, k, hit, round)} ::
               k < |c.slots| && P(k, c) ==> P(k + 1, TestSlot(c, k, hit, round))
    ensures P(i, TestTo(b, i, hit, round))
  {
    if i > 0 {
      TestToInduction(b, i - 1, hit, round, P);
    }
  }

  lemma FillToKeeps(b: Board, i: nat, startPort: nat, endPort: nat, deadline: nat)
    requires Consistent(b, startPort, endPort) && i <= |b.slots|
    ensures Consistent(FillTo(b, i, endPort, deadline), startPort, endPort)
  {
    var P := (c: Board) => Consistent(c, startPort, endPort);
    forall c, k: nat | P(c) && k < |c.slots| ensures P(FillSlot(c, k, endPort, deadline)) {
      FillSlotKeeps(c, k, startPort, endPort, deadline);
    }
    FillToInduction(b, i, endPort, deadline, P);
    assert P(FillTo(b, i, endPort, deadline));
  }

  lemma TestToKeeps(b: Board, i: nat, hit: bool, round: Round, startPort: nat, endPort: nat)
    requires Consistent(b, startPort, endPort) && i <= |b.slots|
    ensures Consistent(TestTo(b, i, hit, round), startPort, endPort)
  {
    var P := (k: nat, c: Board) => Consistent(c, startPort, endPort);
    forall k: nat, c: Board {:trigger TestSlot(c, k, hit, round)} | k < |c.slots| && P(k, c) ensures P(k + 1, TestSlot(c, k, hit, round)) {
      TestSlotKeeps(c, k, hit, round, startPort, endPort);
    }
    TestToInduction(b, i, hit, round, P);
    assert P(i, TestTo(b, i, hit, round));
  }

  /** After any number of passes over whatever happens, every port handed out is in one slot or
      finished once, and marked exactly if its write succeeded. */
  lemma {:induction false} PassesKeep(b: Board, rounds: seq<Round>, n: nat, startPort: nat, endPort: nat, connectTimeout: nat)
    requires Consistent(b, startPort, endPort) && n <= |rounds|
    ensures Consistent(Passes(b, rounds, n, endPort, connectTimeout), startPort, endPort)
  {
    if n > 0 {
      PassesKeep(b, rounds, n - 1, startPort, endPort, connectTimeout);
      PassedKeeps(Passes(b, rounds, n - 1, endPort, connectTimeout), rounds[n - 1], startPort, endPort, connectTimeout);
    }
  }

  lemma PassedKeeps(b: Board, r: Round, startPort: nat, endPort: nat, connectTimeout: nat)
    requires Consistent(b, startPort, endPort)
    ensures Consistent(Passed(b, r, endPort, connectTimeout), startPort, endPort)
  {
    FilledKeeps(b, r, startPort, endPort, connectTimeout);
    TestedKeeps(Filled(b, r, endPort, connectTimeout), r, startPort, endPort);
  }

  lemma FilledKeeps(b: Board, r: Round, startPort: nat, endPort: nat, connectTimeout: nat)
    requires Consistent(b, startPort, endPort)
    ensures Consistent(Filled(b, r, endPort, connectTimeout), startPort, endPort)
  {
    FillToKeeps(b, |b.slots|, startPort, endPort, connectTimeout + r.now);
  }

  lemma TestedKeeps(b: Board, r: Round, startPort: nat, endPort: nat)
    requires Consistent(b, startPort, endPort)
    ensures Consistent(Tested(b, r), startPort, endPort)
  {
    TestToKeeps(b, |b.slots|, AnyReady(b.slots, r), r, startPort, endPort);
  }

  lemma InductionStep(b: Board, rounds: seq<Round>, n: nat, endPort: nat, connectTimeout: nat, P: (nat, Board) -> bool)
    requires n < |rounds| && P(n, b)
    requires forall k: nat, c {:trigger Passed(c, rounds[k], endPort, connectTimeout)} ::
               P(k, c) && k < |rounds| ==> P(k + 1, Passed(c, rounds[k], endPort, connectTimeout))
    ensures P(n + 1, Passed(b, rounds[n], endPort, connectTimeout))
  {
  }

  /** Whatever each pass keeps, the passes keep. */
  lemma {:induction false} PassesInduction(b: Board, rounds: seq<Round>, n: nat, endPort: nat, connectTimeout: nat,
                                           P: (nat, Board) -> bool)
    requires P(0, b) && n <= |rounds|
    requires forall k: nat, c {:trigger Passed(c, rounds[k], endPort, connectTimeout)} ::
               P(k, c) && k < |rounds| ==> P(k + 1, Passed(c, rounds[k], endPort, connectTimeout))
    ensures P(n, Passes(b, rounds, n, endPort, connectTimeout))
  {
    if n > 0 {
      var before := Passes(b, rounds, n - 1, endPort, connectTimeout);
      assert P(n - 1, before) by {
        PassesInduction(b, rounds, n - 1, endPort, connectTimeout, P);
      }
      InductionStep(before, rounds, n - 1, endPort, connectTimeout, P);
      assert P(n, Passed(before, rounds[n - 1], endPort, connectTimeout));
    }
  }

  /** A scan that is done has finished every port of the range exactly once. */
  lemma DoneFinishedAll(b: Board, startPort: nat, endPort: nat)
    requires Consistent(b, startPort, endPort) && Done(b, endPort)
    ensures b.next == endPort + 1 && b.running == 0 && b.finished == Range(startPort, endPort + 1)
    ensures forall p: nat :: b.finished[p] == if startPort <= p <= endPort then 1 else 0
  {
    assert UsedPorts(b.slots) == multiset{};
    forall p: nat ensures b.finished[p] == if startPort <= p <= endPort then 1 else 0 {
      RangeCounts(startPort, endPort + 1, p);
    }
  }

  /** What Consistent means slot by slot and port by port. */
  lemma ConsistentMeans(b: Board, startPort: nat, endPort: nat)
    requires Consistent(b, startPort, endPort)
    ensures 0 <= b.running <= |b.slots|
    ensures forall i, j :: 0 <= i < j < |b.slots| && b.slots[i].used && b.slots[j].used ==> b.slots[i].port != b.slots[j].port
    ensures forall p :: startPort <= p < b.next ==>
              (b.finished[p] == 1 <==> forall i :: 0 <= i < |b.slots| && b.slots[i].used ==> b.slots[i].port != p)
    ensures forall p :: b.finished[p] <= 1 && (p in b.finished ==> startPort <= p < b.next)
    ensures forall p :: 0 <= p <= endPort ==> (b.success[p] <==> p in b.written)
  {
    var slots := b.slots;
    UsedPortsSize(slots);
    forall p: nat ensures b.finished[p] <= 1 && (p in b.finished ==> startPort <= p < b.next)
      && UsedPorts(slots)[p] + b.finished[p] == if startPort <= p < b.next then 1 else 0
    {
      RangeCounts(startPort, b.next, p);
      assert (UsedPorts(slots) + b.finished)[p] == Range(startPort, b.next)[p];
    }
    forall i, j | 0 <= i < j < |slots| && slots[i].used && slots[j].used ensures slots[i].port != slots[j].port {
      if slots[i].port == slots[j].port {
        TwoSlotsCountTwice(slots, i, j);
      }
    }
    forall p | startPort <= p < b.next
      ensures b.finished[p] == 1 <==> forall i :: 0 <= i < |slots| && slots[i].used ==> slots[i].port != p
    {
      UsedPortsIff(slots, p);
    }
  }

  lemma {:induction false} UsedPortsIff(slots: seq<Slot>, p: nat)
    ensures p in UsedPorts(slots) <==> exists i :: 0 <= i < |slots| && slots[i].used && slots[i].port == p
  {
    if slots != [] {
      var n := |slots| - 1;
      UsedPortsIff(slots[..n], p);
      assert forall i :: 0 <= i < n ==> slots[..n][i] == slots[i];
    }
  }
}
