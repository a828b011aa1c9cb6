/** The port scanner ends although peers may stay silent: its timeouts bound the passes a port takes. */
module ScannerEnds {
  import opened PortBoard

  /** The ports still to be finished: those not handed out yet and those in the slots. */
  function Remaining(b: Board, endPort: nat): int {
    endPort + 1 - b.next + b.running
  }

  lemma RemainingIsNone(b: Board, startPort: nat, endPort: nat)
    requires Consistent(b, startPort, endPort)
    ensures Remaining(b, endPort) >= 0 && (Done(b, endPort) <==> Remaining(b, endPort) == 0)
  {
  }

  ghost predicate TimeoutsBy(b: Board, limit: nat) {
    forall k :: 0 <= k < |b.slots| && b.slots[k].used ==> b.slots[k].timeout <= limit
  }

  ghost predicate SomeUsed(b: Board) {
    exists k :: 0 <= k < |b.slots| && b.slots[k].used
  }

  // ----- One pass -----

  /** Filling starts attempts and leaves those under way alone. */
  lemma {:induction false} FillToStarts(b: Board, i: nat, endPort: nat, deadline: nat)
    requires i <= |b.slots| && TimeoutsBy(b, deadline)
    ensures var r := FillTo(b, i, endPort, deadline);
            && Remaining(r, endPort) == Remaining(b, endPort) && TimeoutsBy(r, deadline)
            && (forall k :: 0 <= k < |b.slots| && b.slots[k].used ==> r.slots[k] == b.slots[k])
            && (r.next <= endPort ==> forall k :: 0 <= k < i ==> r.slots[k].used)
  {
    if i > 0 {
      FillToStarts(b, i - 1, endPort, deadline);
    }
  }

  predicate Freeable(s: Slot, ready: bool, hit: bool, now: nat) {
    s.used && if hit then ready else s.timeout <= now
  }

  /** Testing the first k slots has led from b to c: it has finished a port, or there was nothing to finish
      and it has changed nothing. */
  ghost predicate Frees(b: Board, c: Board, k: nat, hit: bool, round: Round, endPort: nat) {
    && Remaining(c, endPort) <= Remaining(b, endPort) && k <= |b.slots|
    && (Remaining(c, endPort) == Remaining(b, endPort) ==>
          c == b && forall j :: 0 <= j < k ==> !Freeable(b.slots[j], j in round.ready, hit, round.now))
  }

  lemma FreesNext(b: Board, c: Board, k: nat, hit: bool, round: Round, endPort: nat)
    requires Frees(b, c, k, hit, round, endPort) && k < |b.slots| && k < |c.slots|
    ensures Frees(b, TestSlot(c, k, hit, round), k + 1, hit, round, endPort)
  {
  }

  lemma TestToFrees(b: Board, i: nat, hit: bool, round: Round, endPort: nat)
    requires i <= |b.slots|
    ensures Frees(b, TestTo(b, i, hit, round), i, hit, round, endPort)
  {
    var P := (k: nat, c: Board) => |c.slots| == |b.slots| && Frees(b, c, k, hit, round, endPort);
    forall k: nat, c: Board {:trigger TestSlot(c, k, hit, round)} | k < |c.slots| && P(k, c) ensures P(k + 1, TestSlot(c, k, hit, round)) {
      FreesNext(b, c, k, hit, round, endPort);
    }
    TestToInduction(b, i, hit, round, P);
    assert P(i, TestTo(b, i, hit, round));
  }

  lemma {:induction false} TestToTimeouts(b: Board, i: nat, hit: bool, round: Round, limit: nat)
    requires i <= |b.slots| && TimeoutsBy(b, limit)
    ensures TimeoutsBy(TestTo(b, i, hit, round), limit)
  {
    if i > 0 {
      TestToTimeouts(b, i - 1, hit, round, limit);
    }
  }

  /** Attempts are under way after filling, as long as ports remain. */
  lemma FilledUses(b: Board, startPort: nat, endPort: nat, deadline: nat)
    requires Consistent(b, startPort, endPort) && TimeoutsBy(b, deadline)
    requires b.slots != [] && Remaining(b, endPort) > 0
    ensures SomeUsed(FillTo(b, |b.slots|, endPort, deadline))
  {
    var f := FillTo(b, |b.slots|, endPort, deadline);
    FillToStarts(b, |b.slots|, endPort, deadline);
    FillToKeeps(b, |b.slots|, startPort, endPort, deadline);
    if f.next <= endPort {
      assert f.slots[0].used;
    } else if !SomeUsed(f) {
      NoUsedPorts(f.slots);
    }
  }

  /** Testing finishes a port, or else changes nothing and all attempts time out later. */
  lemma TestedFrees(f: Board, round: Round, endPort: nat)
    ensures var r := Tested(f, round);
            && Remaining(r, endPort) <= Remaining(f, endPort)
            && (Remaining(r, endPort) == Remaining(f, endPort) ==>
                  r == f && forall k :: 0 <= k < |f.slots| && f.slots[k].used ==> f.slots[k].timeout > round.now)
  {
    var hit := AnyReady(f.slots, round);
    if hit {
      var j :| 0 <= j < |f.slots| && j in round.ready && f.slots[j].used;
      assert Freeable(f.slots[j], j in round.ready, hit, round.now);
      TestToFrees(f, |f.slots|, hit, round, endPort);
    } else {
      TestToFrees(f, |f.slots|, hit, round, endPort);
      if Remaining(Tested(f, round), endPort) == Remaining(f, endPort) {
        forall k | 0 <= k < |f.slots| && f.slots[k].used ensures f.slots[k].timeout > round.now {
          assert !Freeable(f.slots[k], k in round.ready, hit, round.now);
        }
      }
    }
  }

  /** What a pass from b to c at some time does to attempts under way. */
  ghost predicate Advances(b: Board, c: Board, now: nat, endPort: nat, connectTimeout: nat) {
    && TimeoutsBy(c, connectTimeout + now)
    && Remaining(c, endPort) <= Remaining(b, endPort)
    && (Remaining(c, endPort) == Remaining(b, endPort) ==> Waits(b, c, now, endPort))
  }

  /** Attempts go on, and time out later than now. */
  ghost predicate Waits(b: Board, c: Board, now: nat, endPort: nat) {
    && (forall k :: 0 <= k < |b.slots| && b.slots[k].used ==> k < |c.slots| && c.slots[k] == b.slots[k])
    && (forall k :: 0 <= k < |c.slots| && c.slots[k].used ==> c.slots[k].timeout > now)
    && (Remaining(b, endPort) > 0 ==> SomeUsed(c))
  }

  /** A pass finishes a port, or else leaves attempts under way, all of which time out later. */
  lemma PassedAdvances(b: Board, round: Round, startPort: nat, endPort: nat, connectTimeout: nat)
    requires Consistent(b, startPort, endPort) && b.slots != [] && TimeoutsBy(b, connectTimeout + round.now)
    ensures Advances(b, Passed(b, round, endPort, connectTimeout), round.now, endPort, connectTimeout)
  {
    var deadline := connectTimeout + round.now;
    var f := Filled(b, round, endPort, connectTimeout);
    assert FilledFrom(b, f, deadline, endPort) by {
      FillToStarts(b, |b.slots|, endPort, deadline);
      if Remaining(b, endPort) > 0 {
        FilledUses(b, startPort, endPort, deadline);
      }
    }
    assert TimeoutsBy(Tested(f, round), deadline) by {
      TestToTimeouts(f, |f.slots|, AnyReady(f.slots, round), round, deadline);
    }
    TestedFrees(f, round, endPort);
  }

  ghost predicate FilledFrom(b: Board, f: Board, deadline: nat, endPort: nat) {
    && Remaining(f, endPort) == Remaining(b, endPort) && TimeoutsBy(f, deadline) && |f.slots| == |b.slots|
    && (forall k :: 0 <= k < |b.slots| && b.slots[k].used ==> f.slots[k] == b.slots[k])
    && (Remaining(b, endPort) > 0 ==> SomeUsed(f))
  }

  // ----- Many passes -----

  /** The clock advances from each round to the next. */
  ghost predicate Advancing(rounds: seq<Round>) {
    forall i, j :: 0 <= i < j < |rounds| ==> rounds[j].now >= rounds[i].now + (j - i)
  }

  /** A run of the loop, as the boards before each round and after the last. */
  ghost predicate Trace(trace: seq<Board>, rounds: seq<Round>, endPort: nat, connectTimeout: nat) {
    && |trace| == |rounds| + 1 && Advancing(rounds)
    && forall n :: 0 <= n < |rounds| ==> Advances(trace[n], trace[n + 1], rounds[n].now, endPort, connectTimeout)
  }

  lemma {:induction false} RemainingFalls(trace: seq<Board>, rounds: seq<Round>, n: nat, m: nat, endPort: nat, connectTimeout: nat)
    requires Trace(trace, rounds, endPort, connectTimeout) && n <= m <= |rounds|
    ensures Remaining(trace[m], endPort) <= Remaining(trace[n], endPort)
  {
    if n < m {
      RemainingFalls(trace, rounds, n, m - 1, endPort, connectTimeout);
      assert Advances(trace[m - 1], trace[m], rounds[m - 1].now, endPort, connectTimeout);
    }
  }

  /** As long as no port is finished, an attempt under way stays as it is. */
  lemma {:induction false} StuckAttempt(trace: seq<Board>, rounds: seq<Round>, n: nat, m: nat, k: nat, endPort: nat, connectTimeout: nat)
    requires Trace(trace, rounds, endPort, connectTimeout) && n <= m <= |rounds|
    requires Remaining(trace[m], endPort) == Remaining(trace[n], endPort)
    requires k < |trace[n].slots| && trace[n].slots[k].used
    ensures k < |trace[m].slots| && trace[m].slots[k] == trace[n].slots[k]
  {
    if n < m {
      RemainingFalls(trace, rounds, n, m - 1, endPort, connectTimeout);
      assert Advances(trace[m - 1], trace[m], rounds[m - 1].now, endPort, connectTimeout);
      StuckAttempt(trace, rounds, n, m - 1, k, endPort, connectTimeout);
    }
  }

  /** Within one connect timeout, a port is finished. */
  lemma TimeoutFinishes(trace: seq<Board>, rounds: seq<Round>, n: nat, endPort: nat, connectTimeout: nat)
    requires Trace(trace, rounds, endPort, connectTimeout) && n + connectTimeout + 1 <= |rounds|
    requires Remaining(trace[n], endPort) > 0
    ensures Remaining(trace[n + connectTimeout + 1], endPort) < Remaining(trace[n], endPort)
  {
    var last := n + connectTimeout;
    RemainingFalls(trace, rounds, n, n + 1, endPort, connectTimeout);
    RemainingFalls(trace, rounds, n, last, endPort, connectTimeout);
    RemainingFalls(trace, rounds, last, last + 1, endPort, connectTimeout);
    RemainingFalls(trace, rounds, n + 1, last + 1, endPort, connectTimeout);
    if Remaining(trace[last + 1], endPort) == Remaining(trace[n], endPort) {
      assert Advances(trace[n], trace[n + 1], rounds[n].now, endPort, connectTimeout);
      assert Advances(trace[last], trace[last + 1], rounds[last].now, endPort, connectTimeout);
      var k :| 0 <= k < |trace[n + 1].slots| && trace[n + 1].slots[k].used;
      StuckAttempt(trace, rounds, n + 1, last + 1, k, endPort, connectTimeout);
      assert false;
    }
  }

  /** The rounds that `ports` ports take at most. */
  function RoundsFor(ports: nat, connectTimeout: nat): nat {
    if ports == 0 then 0 else RoundsFor(ports - 1, connectTimeout) + connectTimeout + 1
  }

  lemma {:induction false} RoundsForIs(ports: nat, connectTimeout: nat)
    ensures RoundsFor(ports, connectTimeout) == ports * (connectTimeout + 1)
  {
    if ports > 0 {
      RoundsForIs(ports - 1, connectTimeout);
    }
  }

  lemma {:induction false} SomeFinish(trace: seq<Board>, rounds: seq<Round>, ports: nat, endPort: nat, connectTimeout: nat)
    requires Trace(trace, rounds, endPort, connectTimeout) && RoundsFor(ports, connectTimeout) <= |rounds|
    ensures var r := Remaining(trace[RoundsFor(ports, connectTimeout)], endPort);
            r <= 0 || r <= Remaining(trace[0], endPort) - ports
  {
    if ports > 0 {
      var n := RoundsFor(ports - 1, connectTimeout);
      SomeFinish(trace, rounds, ports - 1, endPort, connectTimeout);
      RemainingFalls(trace, rounds, n, n + connectTimeout + 1, endPort, connectTimeout);
      if Remaining(trace[n], endPort) > 0 {
        TimeoutFinishes(trace, rounds, n, endPort, connectTimeout);
      }
    }
  }

  // ----- The loop's passes are such a run -----

  ghost function Boards(b: Board, rounds: seq<Round>, endPort: nat, connectTimeout: nat): seq<Board> {
    seq(|rounds| + 1, n requires 0 <= n <= |rounds| => Passes(b, rounds, n, endPort, connectTimeout))
  }

  /** Round k finds nothing that times out later than attempts begun in it would. */
  ghost predicate Timely(b: Board, rounds: seq<Round>, k: nat, startPort: nat, endPort: nat, connectTimeout: nat) {
    && Consistent(b, startPort, endPort) && b.slots != []
    && (k < |rounds| ==> TimeoutsBy(b, connectTimeout + rounds[k].now))
  }

  lemma TimelyNext(b: Board, rounds: seq<Round>, k: nat, startPort: nat, endPort: nat, connectTimeout: nat)
    requires Advancing(rounds) && k < |rounds| && Timely(b, rounds, k, startPort, endPort, connectTimeout)
    ensures Timely(Passed(b, rounds[k], endPort, connectTimeout), rounds, k + 1, startPort, endPort, connectTimeout)
  {
    PassedKeeps(b, rounds[k], startPort, endPort, connectTimeout);
    PassedAdvances(b, rounds[k], startPort, endPort, connectTimeout);
  }

  lemma EachPassTimely(rounds: seq<Round>, startPort: nat, endPort: nat, connectTimeout: nat)
    requires Advancing(rounds)
    ensures forall k: nat, c {:trigger Passed(c, rounds[k], endPort, connectTimeout)} ::
              k < |rounds| && Timely(c, rounds, k, startPort, endPort, connectTimeout) ==>
                Timely(Passed(c, rounds[k], endPort, connectTimeout), rounds, k + 1, startPort, endPort, connectTimeout)
  {
    forall k: nat, c {:trigger Passed(c, rounds[k], endPort, connectTimeout)}
      | k < |rounds| && Timely(c, rounds, k, startPort, endPort, connectTimeout)
      ensures Timely(Passed(c, rounds[k], endPort, connectTimeout), rounds, k + 1, startPort, endPort, connectTimeout)
    {
      TimelyNext(c, rounds, k, startPort, endPort, connectTimeout);
    }
  }

  lemma PassesTimely(b: Board, rounds: seq<Round>, n: nat, startPort: nat, endPort: nat, connectTimeout: nat)
    requires Advancing(rounds) && n <= |rounds| && Timely(b, rounds, 0, startPort, endPort, connectTimeout)
    ensures Timely(Passes(b, rounds, n, endPort, connectTimeout), rounds, n, startPort, endPort, connectTimeout)
  {
    var P := (k: nat, c: Board) => Timely(c, rounds, k, startPort, endPort, connectTimeout);
    EachPassTimely(rounds, startPort, endPort, connectTimeout);
    PassesInduction(b, rounds, n, endPort, connectTimeout, P);
    assert P(n, Passes(b, rounds, n, endPort, connectTimeout));
  }

  lemma PassesAdvance(b: Board, rounds: seq<Round>, n: nat, startPort: nat, endPort: nat, connectTimeout: nat)
    requires Advancing(rounds) && n < |rounds| && Timely(b, rounds, 0, startPort, endPort, connectTimeout)
    ensures Advances(Passes(b, rounds, n, endPort, connectTimeout), Passes(b, rounds, n + 1, endPort, connectTimeout),
                     rounds[n].now, endPort, connectTimeout)
  {
    PassesTimely(b, rounds, n, startPort, endPort, connectTimeout);
    PassedAdvances(Passes(b, rounds, n, endPort, connectTimeout), rounds[n], startPort, endPort, connectTimeout);
  }

  lemma BoardsAt(b: Board, rounds: seq<Round>, n: nat, endPort: nat, connectTimeout: nat)
    requires n < |rounds|
    ensures var trace := Boards(b, rounds, endPort, connectTimeout);
            && trace[n] == Passes(b, rounds, n, endPort, connectTimeout)
            && trace[n + 1] == Passes(b, rounds, n + 1, endPort, connectTimeout)
  {
  }

  lemma BoardsAdvance(b: Board, rounds: seq<Round>, trace: seq<Board>, n: nat, startPort: nat, endPort: nat, connectTimeout: nat)
    requires Advancing(rounds) && Timely(b, rounds, 0, startPort, endPort, connectTimeout)
    requires n < |rounds| && |trace| == |rounds| + 1 && trace == Boards(b, rounds, endPort, connectTimeout)
    ensures Advances(trace[n], trace[n + 1], rounds[n].now, endPort, connectTimeout)
  {
    BoardsAt(b, rounds, n, endPort, connectTimeout);
    PassesAdvance(b, rounds, n, startPort, endPort, connectTimeout);
  }

  lemma BoardsTrace(b: Board, rounds: seq<Round>, trace: seq<Board>, startPort: nat, endPort: nat, connectTimeout: nat)
    requires Advancing(rounds) && Timely(b, rounds, 0, startPort, endPort, connectTimeout)
    requires |trace| == |rounds| + 1 && trace == Boards(b, rounds, endPort, connectTimeout)
    ensures Trace(trace, rounds, endPort, connectTimeout)
  {
    forall n | 0 <= n < |rounds| ensures Advances(trace[n], trace[n + 1], rounds[n].now, endPort, connectTimeout) {
      BoardsAdvance(b, rounds, trace, n, startPort, endPort, connectTimeout);
    }
  }

  lemma TraceEnds(trace: seq<Board>, rounds: seq<Round>, n: nat, startPort: nat, endPort: nat, connectTimeout: nat)
    requires Trace(trace, rounds, endPort, connectTimeout) && n <= |rounds|
    requires Consistent(trace[0], startPort, endPort) && Consistent(trace[n], startPort, endPort)
    requires Remaining(trace[0], endPort) * (connectTimeout + 1) <= n
    ensures Done(trace[n], endPort)
  {
    var ports := Remaining(trace[0], endPort);
    RemainingIsNone(trace[0], startPort, endPort);
    RoundsForIs(ports, connectTimeout);
    SomeFinish(trace, rounds, ports, endPort, connectTimeout);
    RemainingFalls(trace, rounds, RoundsFor(ports, connectTimeout), n, endPort, connectTimeout);
    RemainingIsNone(trace[n], startPort, endPort);
  }

  /** As the clock advances, the scan is done after at most (connectTimeout + 1) rounds a port,
      however long the peers stay silent. */
  lemma ScanEnds(b: Board, rounds: seq<Round>, n: nat, startPort: nat, endPort: nat, connectTimeout: nat)
    requires Consistent(b, startPort, endPort) && b.slots != [] && Advancing(rounds)
    requires rounds != [] && TimeoutsBy(b, connectTimeout + rounds[0].now)
    requires Remaining(b, endPort) * (connectTimeout + 1) <= n <= |rounds|
    ensures Done(Passes(b, rounds, n, endPort, connectTimeout), endPort)
  {
    var trace := Boards(b, rounds, endPort, connectTimeout);
    BoardsTrace(b, rounds, trace, startPort, endPort, connectTimeout);
    PassesKeep(b, rounds, n, startPort, endPort, connectTimeout);
    TraceEnds(trace, rounds, n, startPort, endPort, connectTimeout);
  }
}
