/** When auto-closing may end an association, on the times and counts themselves. */
module AutoCloseTiming {
  import opened Basics
  import opened Notifications
  import opened EngineState
  import opened EngineEvolution
  import opened EngineCalls
  import Delivery

  /**
    * An open association is left as it is, and is not aborted, if its socket has auto-close switched
    * off, or until it has been idle for longer than the timeout.
    */
  lemma IdleIsLeftAlone(s: State, t: State, a: AssocId)
    requires Inv(s) && Evolves(s, t) && a in s.assocs && !s.assocs[a].complete && !s.assocs[a].lost
    requires s.assocs[a].socket in s.sockets
    requires var timeout := s.sockets[s.assocs[a].socket].autoCloseTimeout;
             timeout == 0 || s.clock <= s.assocs[a].lastUsage + timeout
    ensures a in t.assocs && t.assocs[a] == s.assocs[a] && (a in t.lib.aborted <==> a in s.lib.aborted)
  {
    assert EvolvedAssoc(s, t, a) && EvolvedId(s, t, a);
  }

  /** It is not aborted until it has been idle for longer than four timeouts. */
  lemma IdleIsNotAborted(s: State, t: State, a: AssocId)
    requires Inv(s) && Evolves(s, t) && a in s.assocs && s.assocs[a].socket in s.sockets
    requires var timeout := s.sockets[s.assocs[a].socket].autoCloseTimeout;
             s.clock <= s.assocs[a].lastUsage + 4 * timeout
    ensures a in t.lib.aborted <==> a in s.lib.aborted
  {
    assert EvolvedId(s, t, a);
  }

  /** What auto-closing deletes was listed, used by nobody, and closed or idle for too long. */
  lemma DeletedForCause(s: State, t: State, a: AssocId)
    requires Inv(s) && Evolves(s, t) && a in s.assocs && a !in t.assocs
    ensures var x := s.assocs[a];
            && x.socket in s.sockets && a in s.sockets[x.socket].connectionless && x.useCount == 0
            && (x.complete || x.lost
                || (s.sockets[x.socket].autoCloseTimeout > 0
                    && s.clock > x.lastUsage + s.sockets[x.socket].autoCloseTimeout))
  {
    assert EvolvedAssoc(s, t, a) && AssocOk(s, a);
  }

  /** What a finished check has done about a listed association that nobody uses. */
  ghost predicate Told(s: State, i: Instance, a: AssocId) {
    a in s.assocs && i in s.sockets && a in s.sockets[i].connectionless && s.assocs[a].useCount == 0 ==>
      var x, timeout := s.assocs[a], s.sockets[i].autoCloseTimeout;
      && !x.complete && !x.lost
      && (timeout > 0 && s.clock > x.lastUsage + timeout ==> x.shuttingDown || a in s.lib.aborted)
      && (timeout > 0 && s.clock > x.lastUsage + 4 * timeout ==> a in s.lib.aborted)
  }

  /** On a settled socket, the closed ones are gone, and every one that was idle for too long has been
      told: shut down, and aborted past four timeouts. */
  lemma SettledTold(s: State, i: Instance)
    requires Inv(s) && Settled(s, i)
    ensures forall a {:trigger Told(s, i, a)} :: Told(s, i, a)
  {
    forall a ensures Told(s, i, a) {
      assert ListOk(s, i, a);
      if a in s.sockets[i].connectionless {
        assert Handled(s, a);
      }
    }
  }

  /** What auto-closing may do to an association, by its times and counts. */
  ghost predicate Spared(s: State, t: State, a: AssocId) {
    a in s.assocs && s.assocs[a].socket in s.sockets ==>
      var x, timeout := s.assocs[a], s.sockets[s.assocs[a].socket].autoCloseTimeout;
      && (x.useCount > 0 || (!x.complete && !x.lost && (timeout == 0 || s.clock <= x.lastUsage + timeout)) ==>
            a in t.assocs && t.assocs[a] == x && (a in t.lib.aborted <==> a in s.lib.aborted))
      && (s.clock <= x.lastUsage + 4 * timeout ==> (a in t.lib.aborted <==> a in s.lib.aborted))
  }

  lemma EvolvesSpares(s: State, t: State)
    requires Inv(s) && Evolves(s, t)
    ensures forall a {:trigger Spared(s, t, a)} :: Spared(s, t, a)
  {
    forall a ensures Spared(s, t, a) {
      assert EvolvedAssoc(s, t, a) && EvolvedId(s, t, a);
    }
  }

  /** What a check does with one listed association, by the same. */
  ghost predicate CheckedByClock(s: State, t: State, i: Instance, a: AssocId) {
    a in s.assocs && i in s.sockets &&
    var x, timeout := s.assocs[a], s.sockets[i].autoCloseTimeout;
    if x.useCount > 0 then t == s
    else if x.complete || x.lost then a !in t.assocs && a !in t.lib.assocs && t.lib.released[a] == s.lib.released[a] + 1
    else if timeout == 0 || s.clock <= x.lastUsage + timeout then t == s
    else if s.clock <= x.lastUsage + 4 * timeout then
      if x.shuttingDown then t == s
      else a in t.assocs && t.assocs[a].shuttingDown && (a in t.lib.aborted <==> a in s.lib.aborted)
    else a in t.assocs && t.assocs[a].shuttingDown && a in t.lib.aborted
  }

  lemma CheckedGoesByClock(s: State, t: State, i: Instance, a: AssocId)
    requires CheckedUp(s, t, i, a) && Inv(s) && a in s.sockets[i].connectionless && s.sockets[i].inAutoClose
    ensures CheckedByClock(s, t, i, a)
  {
    assert ListOk(s, i, a) && AssocOk(s, a);
    if Expired(s, a) && t != StartEnd(s, a, Overdue(s, a)) {
      var lost := EndHandled(StartEnd(s, a, Overdue(s, a)), t, a, true);
      EndMarks(StartEnd(s, a, Overdue(s, a)), t, a, lost);
    }
  }

  /** While its socket is being checked, the end of an association only marks it. */
  lemma EndMarks(s: State, t: State, a: AssocId, lost: bool)
    requires EndHandled(s, t, a, lost) && a !in s.closingAssocs && a in s.assocs
    requires s.assocs[a].socket in s.sockets && s.sockets[s.assocs[a].socket].inAutoClose
    ensures a in t.assocs && t.assocs[a].shuttingDown == s.assocs[a].shuttingDown && t.lib.aborted == s.lib.aborted
  {
    MarkEndHolds(s, a, lost);
  }
}
