/** The scheduling loop of the port scanner. */
module PortScanner {
  import opened PortBoard
  import opened ScannerEnds
  import opened ScannerMarks

  class Scanner {
    const slots: array<Slot>
    const success: array<bool>
    const startPort: nat
    const endPort: nat
    const connectTimeout: nat
    var nextPort: nat
    var running: int
    ghost var finished: multiset<nat>
    ghost var written: set<nat>

    ghost function View(): Board
      reads this, slots, success
    {
      Board(slots[..], nextPort, running, success[..], finished, written)
    }

    /** The arrays can hold the ports in the slots. */
    ghost predicate Fits()
      reads slots, success
    {
      success.Length == endPort + 1 && forall k :: 0 <= k < slots.Length ==> slots[k].port <= endPort
    }

    /** The state before the loop; the ports have been clamped to 1..65535 by then. */
    constructor (startPort: nat, endPort: nat, simultaneous: nat, connectTimeout: nat)
      requires 1 <= startPort <= endPort <= 65535 && 1 <= simultaneous <= 512
      ensures Fits() && fresh(slots) && fresh(success) && slots.Length == simultaneous
      ensures this.startPort == startPort && this.endPort == endPort && this.connectTimeout == connectTimeout
      ensures Consistent(View(), startPort, endPort) && nextPort == startPort && finished == multiset{} && written == {}
    {
      slots := new Slot[simultaneous](_ => Slot(false, 0, 0));
      success := new bool[endPort + 1](_ => false);
      this.startPort, this.endPort, this.connectTimeout := startPort, endPort, connectTimeout;
      nextPort, running, finished, written := startPort, 0, multiset{}, {};
      new;
      NoUsedPorts(slots[..]);
    }

    /** The first part of a pass: fill free slots while ports are left. */
    method Fill(now: nat)
      requires Fits()
      modifies this`nextPort, this`running, slots
      ensures Fits() && View() == FillTo(old(View()), slots.Length, endPort, connectTimeout + now)
    {
      var i := 0;
      while i < slots.Length && nextPort <= endPort
        invariant 0 <= i <= slots.Length && Fits()
        invariant View() == FillTo(old(View()), i, endPort, connectTimeout + now)
      {
        FillOne(i, now);
        i := i + 1;
      }
      if i < slots.Length {
        FillStops(old(View()), i, endPort, connectTimeout + now);
      }
    }

    method FillOne(i: nat, now: nat)
      requires Fits() && i < slots.Length && nextPort <= endPort
      modifies this`nextPort, this`running, slots
      ensures Fits() && View() == FillSlot(old(View()), i, endPort, connectTimeout + now)
    {
      if !slots[i].used {
        ghost var was := slots[..];
        slots[i] := Slot(true, nextPort, connectTimeout + now);
        assert slots[..] == was[i := slots[i]];
        nextPort := nextPort + 1;
        running := running + 1;
      }
    }

    /** Deletes the socket of an occupied slot, after a test write or a timeout. */
    method Finish(i: nat, wrote: bool)
      requires Fits() && i < slots.Length
      modifies this`running, this`finished, this`written, slots, success
      ensures Fits() && View() == Freed(old(View()), i, wrote)
    {
      ghost var was, marks, p := slots[..], success[..], slots[i].port;
      if wrote {
        success[slots[i].port] := true;
        written := written + {p};
        assert success[..] == marks[p := true];
      }
      slots[i] := slots[i].(used := false);
      assert slots[..] == was[i := slots[i]];
      running := running - 1;
      finished := finished + multiset{p};
    }

    /** The second part of a pass: probe the slots that are ready, or expire old ones if none is. */
    method Test(round: Round)
      requires Fits()
      modifies this`running, this`finished, this`written, slots, success
      ensures Fits() && View() == Tested(old(View()), round)
    {
      var hit := Select(round);
      for i := 0 to slots.Length
        invariant Fits() && View() == TestTo(old(View()), i, hit, round)
      {
        TestOne(i, hit, round);
      }
    }

    method Select(round: Round) returns (hit: bool)
      ensures hit == AnyReady(slots[..], round)
    {
      hit := exists i :: 0 <= i < slots.Length && i in round.ready && slots[i].used;
      assert forall i :: 0 <= i < slots.Length ==> slots[..][i] == slots[i];
    }

    method TestOne(i: nat, hit: bool, round: Round)
      requires Fits() && i < slots.Length
      modifies this`running, this`finished, this`written, slots, success
      ensures Fits() && View() == TestSlot(old(View()), i, hit, round)
    {
      if hit {
        if slots[i].used && i in round.ready {
          Finish(i, slots[i].port in round.writable);
        }
      } else if slots[i].used && slots[i].timeout <= round.now {
        Finish(i, false);
      }
    }

    /**
      * The scheduling loop over the rounds that happen; `n` of them are taken.  It ends at the first
      * round that breaks it, or when all ports are handed out and nothing runs, or when no more rounds
      * are given.  The ledger is kept, a scan that ends by itself has finished every port of the range
      * exactly once, and without a break it does end: the timeouts bound the rounds it takes.
      */
    method Scan(rounds: seq<Round>) returns (n: nat, broken: bool, complete: bool)
      requires Fits() && Consistent(View(), startPort, endPort)
      modifies this`nextPort, this`running, this`finished, this`written, slots, success
      ensures n <= |rounds| && View() == Passes(old(View()), rounds, n, endPort, connectTimeout)
      ensures Consistent(View(), startPort, endPort)
      ensures broken <==> n > 0 && rounds[n - 1].breakDetected
      ensures complete <==> n > 0 && !broken && Done(View(), endPort)
      ensures !broken && !complete ==> n == |rounds|
      ensures forall j :: 0 < j < n ==> GoesOn(old(View()), rounds, j)
      ensures complete ==> finished == Range(startPort, endPort + 1)
      ensures forall p :: 0 <= p <= endPort && !old(success[p]) ==>
                (success[p] <==> Written(old(View()), rounds, n, endPort, connectTimeout, p))
      ensures Bounded(old(View()), rounds) && (forall k :: 0 <= k < |rounds| ==> !rounds[k].breakDetected)
              && |rounds| >= Remaining(old(View()), endPort) * (connectTimeout + 1)
              ==> complete && (n <= Remaining(old(View()), endPort) * (connectTimeout + 1) || n == 1)
    {
      ghost var b := View();
      n, broken, complete := Loop(rounds);
      ScanOutcome(b, rounds, n, broken, complete);
      AllMarkedIffWritten(b, rounds, n);
    }

    lemma AllMarkedIffWritten(b: Board, rounds: seq<Round>, n: nat)
      requires n <= |rounds|
      ensures var c := Passes(b, rounds, n, endPort, connectTimeout);
              |c.success| == |b.success| && forall p :: 0 <= p < |b.success| && !b.success[p] ==>
                (c.success[p] <==> Written(b, rounds, n, endPort, connectTimeout, p))
    {
      var c := Passes(b, rounds, n, endPort, connectTimeout);
      SuccessLength(b, rounds, n, endPort, connectTimeout);
      forall p | 0 <= p < |b.success| && !b.success[p]
        ensures c.success[p] <==> Written(b, rounds, n, endPort, connectTimeout, p)
      {
        MarkedIffWritten(b, rounds, n, endPort, connectTimeout, p);
      }
    }

    /** What a loop that has gone on after each round but its last one has reached. */
    lemma ScanOutcome(b: Board, rounds: seq<Round>, n: nat, broken: bool, complete: bool)
      requires Consistent(b, startPort, endPort) && n <= |rounds|
      requires broken <==> n > 0 && rounds[n - 1].breakDetected
      requires complete <==> n > 0 && !broken && Done(Passes(b, rounds, n, endPort, connectTimeout), endPort)
      requires WentOn(b, rounds, if broken || complete then n - 1 else n) && (!broken && !complete ==> n == |rounds|)
      ensures var t := Passes(b, rounds, n, endPort, connectTimeout);
              Consistent(t, startPort, endPort) && (complete ==> t.finished == Range(startPort, endPort + 1))
      ensures forall j :: 0 < j < n ==> GoesOn(b, rounds, j)
      ensures Bounded(b, rounds) && (forall k :: 0 <= k < |rounds| ==> !rounds[k].breakDetected)
              && |rounds| >= Remaining(b, endPort) * (connectTimeout + 1)
              ==> complete && (n <= Remaining(b, endPort) * (connectTimeout + 1) || n == 1)
    {
      WentOnAfter(b, rounds, if broken || complete then n - 1 else n);
      if Bounded(b, rounds) && |rounds| >= Remaining(b, endPort) * (connectTimeout + 1) {
        LoopEnds(b, rounds, n);
      }
      PassesKeep(b, rounds, n, startPort, endPort, connectTimeout);
      if complete {
        DoneFinishedAll(Passes(b, rounds, n, endPort, connectTimeout), startPort, endPort);
      }
    }

    method Pass(round: Round) returns (broken: bool, complete: bool)
      requires Fits()
      modifies this`nextPort, this`running, this`finished, this`written, slots, success
      ensures Fits() && View() == Passed(old(View()), round, endPort, connectTimeout)
      ensures broken == round.breakDetected && complete == (!broken && Done(View(), endPort))
    {
      Fill(round.now);
      Test(round);
      broken := round.breakDetected;
      complete := !broken && !(nextPort <= endPort || running > 0);
    }

    /** The clock advances, and the attempts under way time out at most one connect timeout later. */
    ghost predicate Bounded(b: Board, rounds: seq<Round>) {
      rounds != [] && Advancing(rounds) && b.slots != [] && TimeoutsBy(b, connectTimeout + rounds[0].now)
    }

    lemma LoopEnds(b: Board, rounds: seq<Round>, n: nat)
      requires Consistent(b, startPort, endPort) && Bounded(b, rounds) && n <= |rounds|
      requires Remaining(b, endPort) * (connectTimeout + 1) <= |rounds|
      ensures var bound := Remaining(b, endPort) * (connectTimeout + 1);
              && (n >= bound ==> Done(Passes(b, rounds, n, endPort, connectTimeout), endPort))
              && (n > bound >= 1 ==> !GoesOn(b, rounds, bound))
              && (n > 1 > bound ==> !GoesOn(b, rounds, 1))
    {
      var bound := Remaining(b, endPort) * (connectTimeout + 1);
      if n >= bound {
        ScanEnds(b, rounds, n, startPort, endPort, connectTimeout);
        if bound >= 1 {
          ScanEnds(b, rounds, bound, startPort, endPort, connectTimeout);
        } else if n > 1 {
          RemainingIsNone(b, startPort, endPort);
          ScanEnds(b, rounds, 1, startPort, endPort, connectTimeout);
        }
      }
    }

    /** Where the loop is after n rounds. */
    ghost predicate Taken(b: Board, rounds: seq<Round>, n: nat, broken: bool, complete: bool)
      reads this, slots, success
    {
      && n <= |rounds| && Fits() && View() == Passes(b, rounds, n, endPort, connectTimeout)
      && (broken <==> n > 0 && rounds[n - 1].breakDetected)
      && (complete <==> n > 0 && !broken && Done(View(), endPort))
      && WentOn(b, rounds, if broken || complete then n - 1 else n)
    }

    /** The pass after the first n. */
    method Next(ghost b: Board, rounds: seq<Round>, n: nat) returns (m: nat, broken: bool, complete: bool)
      requires n < |rounds| && Taken(b, rounds, n, false, false)
      modifies this`nextPort, this`running, this`finished, this`written, slots, success
      ensures m == n + 1 && Taken(b, rounds, m, broken, complete)
    {
      broken, complete := Pass(rounds[n]);
      m := n + 1;
    }

    method Loop(rounds: seq<Round>) returns (n: nat, broken: bool, complete: bool)
      requires Fits()
      modifies this`nextPort, this`running, this`finished, this`written, slots, success
      ensures Taken(old(View()), rounds, n, broken, complete) && (!broken && !complete ==> n == |rounds|)
    {
      ghost var b := View();
      broken, complete, n := false, false, 0;
      while n < |rounds| && !broken && !complete
        invariant n <= |rounds| && Taken(b, rounds, n, broken, complete)
      {
        n, broken, complete := Next(b, rounds, n);
      }
    }

    /** The loop went on after each of the first n rounds. */
    ghost predicate WentOn(b: Board, rounds: seq<Round>, n: nat)
      requires n <= |rounds|
    {
      n == 0 || (WentOn(b, rounds, n - 1) && GoesOn(b, rounds, n))
    }

    lemma {:induction false} WentOnAfter(b: Board, rounds: seq<Round>, n: nat)
      requires n <= |rounds| && WentOn(b, rounds, n)
      ensures forall j :: 0 < j <= n ==> GoesOn(b, rounds, j)
    {
      if n > 0 {
        WentOnAfter(b, rounds, n - 1);
      }
    }

    /** The loop goes on after j rounds. */
    ghost predicate GoesOn(b: Board, rounds: seq<Round>, j: nat)
      requires 0 < j <= |rounds|
    {
      !rounds[j - 1].breakDetected && !Done(Passes(b, rounds, j, endPort, connectTimeout), endPort)
    }
  }
}
