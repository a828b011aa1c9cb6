/** Which ports the port scanner marks, and when it gives an attempt up. */
module ScannerMarks {
  import opened PortBoard

  /** Some occupied slot is ready. */
  ghost predicate SomeReady(slots: seq<Slot>, round: Round) {
    exists i :: 0 <= i < |slots| && slots[i].used && i in round.ready
  }

  /** An attempt ends when it is ready, or, if none is, when its time is over. */
  ghost predicate AttemptEnds(slots: seq<Slot>, i: nat, round: Round)
    requires i < |slots|
  {
    slots[i].used && if SomeReady(slots, round) then i in round.ready else slots[i].timeout <= round.now
  }

  /** The port is in a ready slot, and its test write succeeds. */
  ghost predicate WrittenIn(slots: seq<Slot>, round: Round, p: nat, upTo: nat) {
    exists i :: 0 <= i < |slots| && i < upTo && slots[i].used && slots[i].port == p && i in round.ready && p in round.writable
  }

  // ----- One pass -----

  /** The first n slots are tested: attempts that end are gone, and exactly the ports written are marked. */
  ghost predicate TestedAs(b: Board, c: Board, n: nat, round: Round) {
    && |c.slots| == |b.slots| && |c.success| == |b.success| && c.next == b.next
    && (forall i :: 0 <= i < |b.slots| ==>
          c.slots[i] == if i < n && AttemptEnds(b.slots, i, round) then b.slots[i].(used := false) else b.slots[i])
    && (forall p :: 0 <= p < |b.success| ==> (c.success[p] <==> b.success[p] || WrittenIn(b.slots, round, p, n)))
  }

  lemma TestedNext(b: Board, c: Board, n: nat, round: Round)
    requires n < |b.slots| && TestedAs(b, c, n, round)
    ensures TestedAs(b, TestSlot(c, n, AnyReady(b.slots, round), round), n + 1, round)
  {
    var d := TestSlot(c, n, AnyReady(b.slots, round), round);
    assert AnyReady(b.slots, round) == SomeReady(b.slots, round);
    forall p | 0 <= p < |b.success| ensures d.success[p] <==> b.success[p] || WrittenIn(b.slots, round, p, n + 1) {
      WrittenNext(b.slots, round, p, n);
    }
  }

  lemma WrittenNext(slots: seq<Slot>, round: Round, p: nat, n: nat)
    requires n < |slots|
    ensures WrittenIn(slots, round, p, n + 1)
            <==> WrittenIn(slots, round, p, n)
                 || (slots[n].used && slots[n].port == p && n in round.ready && p in round.writable)
  {
  }

  lemma TestedIs(b: Board, round: Round)
    ensures TestedAs(b, Tested(b, round), |b.slots|, round)
  {
    var hit := AnyReady(b.slots, round);
    var P := (k: nat, c: Board) => |c.slots| == |b.slots| && TestedAs(b, c, k, round);
    forall k: nat, c: Board {:trigger TestSlot(c, k, hit, round)} | k < |c.slots| && P(k, c)
      ensures P(k + 1, TestSlot(c, k, hit, round))
    {
      TestedNext(b, c, k, round);
    }
    TestToInduction(b, |b.slots|, hit, round, P);
    assert P(|b.slots|, Tested(b, round));
  }

  /** Filling leaves attempts under way alone, and starts others with the full time; it marks nothing. */
  ghost predicate FilledAs(b: Board, c: Board, deadline: nat) {
    && |c.slots| == |b.slots| && c.success == b.success && b.next <= c.next
    && (forall i :: 0 <= i < |b.slots| && b.slots[i].used ==> c.slots[i] == b.slots[i])
    && (forall i :: 0 <= i < |b.slots| && !b.slots[i].used && c.slots[i].used ==>
          c.slots[i].timeout == deadline && b.next <= c.slots[i].port < c.next)
    && (forall i :: 0 <= i < |b.slots| && !b.slots[i].used && !c.slots[i].used ==> c.slots[i] == b.slots[i])
  }

  lemma FilledIs(b: Board, round: Round, endPort: nat, connectTimeout: nat)
    ensures FilledAs(b, Filled(b, round, endPort, connectTimeout), connectTimeout + round.now)
  {
    var deadline := connectTimeout + round.now;
    var P := (c: Board) => FilledAs(b, c, deadline);
    FillToInduction(b, |b.slots|, endPort, deadline, P);
    assert P(FillTo(b, |b.slots|, endPort, deadline));
  }

  // ----- Whole runs -----

  /** The port is in a ready slot in one of the first n rounds, and its test write succeeds. */
  ghost predicate Written(b: Board, rounds: seq<Round>, n: nat, endPort: nat, connectTimeout: nat, p: nat)
    requires n <= |rounds|
  {
    exists k {:trigger Passes(b, rounds, k, endPort, connectTimeout)} :: 0 <= k < n &&
      var f := Filled(Passes(b, rounds, k, endPort, connectTimeout), rounds[k], endPort, connectTimeout);
      WrittenIn(f.slots, rounds[k], p, |f.slots|)
  }

  /**
    * A port is marked after any passes exactly if its test write succeeded in one of them, when select()
    * had found its slot ready.  So one that only timed out is not marked.
    */
  lemma {:induction false} MarkedIffWritten(b: Board, rounds: seq<Round>, n: nat, endPort: nat, connectTimeout: nat, p: nat)
    requires n <= |rounds| && p < |b.success| && !b.success[p]
    ensures MarkedRight(b, Passes(b, rounds, n, endPort, connectTimeout), rounds, n, endPort, connectTimeout, p)
  {
    if n > 0 {
      MarkedIffWritten(b, rounds, n - 1, endPort, connectTimeout, p);
      MarkedNext(b, rounds, n - 1, endPort, connectTimeout, p);
    }
  }

  ghost predicate MarkedRight(b: Board, c: Board, rounds: seq<Round>, n: nat, endPort: nat, connectTimeout: nat, p: nat)
    requires n <= |rounds| && p < |b.success|
  {
    |c.success| == |b.success| && (c.success[p] <==> Written(b, rounds, n, endPort, connectTimeout, p))
  }

  lemma MarkedNext(b: Board, rounds: seq<Round>, n: nat, endPort: nat, connectTimeout: nat, p: nat)
    requires n < |rounds| && p < |b.success|
    requires MarkedRight(b, Passes(b, rounds, n, endPort, connectTimeout), rounds, n, endPort, connectTimeout, p)
    ensures MarkedRight(b, Passes(b, rounds, n + 1, endPort, connectTimeout), rounds, n + 1, endPort, connectTimeout, p)
  {
    PassMarks(Passes(b, rounds, n, endPort, connectTimeout), rounds[n], endPort, connectTimeout, p);
    WrittenLater(b, rounds, n, endPort, connectTimeout, p);
  }

  lemma SuccessLength(b: Board, rounds: seq<Round>, n: nat, endPort: nat, connectTimeout: nat)
    requires n <= |rounds|
    ensures |Passes(b, rounds, n, endPort, connectTimeout).success| == |b.success|
  {
    var P := (k: nat, c: Board) => |c.success| == |b.success|;
    forall k: nat, c {:trigger Passed(c, rounds[k], endPort, connectTimeout)} | P(k, c) && k < |rounds|
      ensures P(k + 1, Passed(c, rounds[k], endPort, connectTimeout))
    {
      FilledIs(c, rounds[k], endPort, connectTimeout);
      TestedIs(Filled(c, rounds[k], endPort, connectTimeout), rounds[k]);
    }
    PassesInduction(b, rounds, n, endPort, connectTimeout, P);
    assert P(n, Passes(b, rounds, n, endPort, connectTimeout));
  }

  lemma PassMarks(b: Board, round: Round, endPort: nat, connectTimeout: nat, p: nat)
    requires p < |b.success|
    ensures var c, f := Passed(b, round, endPort, connectTimeout), Filled(b, round, endPort, connectTimeout);
            |c.success| == |b.success| && (c.success[p] <==> b.success[p] || WrittenIn(f.slots, round, p, |f.slots|))
  {
    FilledIs(b, round, endPort, connectTimeout);
    TestedIs(Filled(b, round, endPort, connectTimeout), round);
  }

  lemma WrittenLater(b: Board, rounds: seq<Round>, n: nat, endPort: nat, connectTimeout: nat, p: nat)
    requires n < |rounds|
    ensures var f := Filled(Passes(b, rounds, n, endPort, connectTimeout), rounds[n], endPort, connectTimeout);
            Written(b, rounds, n + 1, endPort, connectTimeout, p)
            <==> Written(b, rounds, n, endPort, connectTimeout, p) || WrittenIn(f.slots, rounds[n], p, |f.slots|)
  {
  }

  /** After round 0 handed it out, the attempt at the port keeps its time, wherever it is. */
  ghost predicate KeepsTime(b: Board, c: Board, m: nat, p: nat, timeout: nat) {
    if m == 0 then c == b
    else p < c.next && forall i :: 0 <= i < |c.slots| && c.slots[i].used && c.slots[i].port == p ==> c.slots[i].timeout == timeout
  }

  lemma KeepsTimeNext(b: Board, c: Board, m: nat, p: nat, round: Round, startPort: nat, endPort: nat, connectTimeout: nat, timeout: nat)
    requires KeepsTime(b, c, m, p, timeout)
    requires m == 0 ==> Consistent(b, startPort, endPort) && timeout == connectTimeout + round.now
                        && b.next <= p < Filled(b, round, endPort, connectTimeout).next
    ensures KeepsTime(b, Passed(c, round, endPort, connectTimeout), m + 1, p, timeout)
    ensures var f := Filled(c, round, endPort, connectTimeout);
            forall i :: 0 <= i < |f.slots| && f.slots[i].used && f.slots[i].port == p ==> f.slots[i].timeout == timeout
  {
    var f := Filled(c, round, endPort, connectTimeout);
    FilledIs(c, round, endPort, connectTimeout);
    TestedIs(f, round);
    forall i | 0 <= i < |f.slots| && f.slots[i].used && f.slots[i].port == p ensures f.slots[i].timeout == timeout {
      if c.slots[i].used && m == 0 {
        Outstanding(b, startPort, endPort, i);
      }
    }
  }

  lemma PassesKeepTime(b: Board, rounds: seq<Round>, k: nat, p: nat, startPort: nat, endPort: nat, connectTimeout: nat)
    requires Consistent(b, startPort, endPort) && k < |rounds|
    requires b.next <= p < Filled(b, rounds[0], endPort, connectTimeout).next
    ensures KeepsTime(b, Passes(b, rounds, k, endPort, connectTimeout), k, p, connectTimeout + rounds[0].now)
  {
    var timeout := connectTimeout + rounds[0].now;
    var P := (m: nat, c: Board) => KeepsTime(b, c, m, p, timeout);
    forall m: nat, c {:trigger Passed(c, rounds[m], endPort, connectTimeout)} | P(m, c) && m < |rounds|
      ensures P(m + 1, Passed(c, rounds[m], endPort, connectTimeout))
    {
      KeepsTimeNext(b, c, m, p, rounds[m], startPort, endPort, connectTimeout, timeout);
    }
    PassesInduction(b, rounds, k, endPort, connectTimeout, P);
    assert P(k, Passes(b, rounds, k, endPort, connectTimeout));
  }

  /**
    * An attempt that round 0 has begun for a port is ended by a later round k only if it is ready, or not
    * before its connect timeout is over.
    */
  lemma NotGivenUpEarly(b: Board, rounds: seq<Round>, k: nat, i: nat, p: nat, startPort: nat, endPort: nat, connectTimeout: nat)
    requires Consistent(b, startPort, endPort) && k < |rounds|
    requires b.next <= p < Filled(b, rounds[0], endPort, connectTimeout).next
    ensures var c := Passes(b, rounds, k, endPort, connectTimeout);
            var f, d := Filled(c, rounds[k], endPort, connectTimeout), Passed(c, rounds[k], endPort, connectTimeout);
            i < |f.slots| && f.slots[i].used && f.slots[i].port == p && !d.slots[i].used ==>
              i in rounds[k].ready || rounds[k].now >= rounds[0].now + connectTimeout
  {
    var c := Passes(b, rounds, k, endPort, connectTimeout);
    PassesKeepTime(b, rounds, k, p, startPort, endPort, connectTimeout);
    EndsInTime(b, c, k, i, p, rounds[k], startPort, endPort, connectTimeout, connectTimeout + rounds[0].now);
  }

  lemma EndsInTime(b: Board, c: Board, m: nat, i: nat, p: nat, round: Round, startPort: nat, endPort: nat, connectTimeout: nat,
                   timeout: nat)
    requires KeepsTime(b, c, m, p, timeout)
    requires m == 0 ==> Consistent(b, startPort, endPort) && timeout == connectTimeout + round.now
                        && b.next <= p < Filled(b, round, endPort, connectTimeout).next
    ensures var f, d := Filled(c, round, endPort, connectTimeout), Passed(c, round, endPort, connectTimeout);
            i < |f.slots| && f.slots[i].used && f.slots[i].port == p && !d.slots[i].used ==>
              i in round.ready || round.now >= timeout
  {
    KeepsTimeNext(b, c, m, p, round, startPort, endPort, connectTimeout, timeout);
    TestedIs(Filled(c, round, endPort, connectTimeout), round);
  }
}
