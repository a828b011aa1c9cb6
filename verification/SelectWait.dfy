/** ext_select on SCTP descriptors: registering its conditions, and collecting what fired. */
module SelectWait {
  import opened Conditions

  datatype Kind = Read | Write | Except

  /** A watched update condition of the descriptor `fd`.  `ready` is the descriptor's cached
      readiness, `always` marks the write side of a UDP-like socket. */
  datatype Watch = Watch(fd: nat, kind: Kind, c: Condition, ready: bool, always: bool)

  /** The conditions local to one call. */
  datatype Locals = Locals(global: Condition, read: Condition, write: Condition, except: Condition) {
    function Of(kind: Kind): Condition {
      match kind
      case Read => read
      case Write => write
      case Except => except
    }

    ghost function Sides(): set<Condition> {
      {read, write, except}
    }

    ghost function All(): set<Condition> {
      {global, read, write, except}
    }

    ghost predicate Leveled() {
      global.level == 0 && read.level == 1 && write.level == 1 && except.level == 1
    }
  }

  // ---------------------------------------------------------------- registering, as a value

  /** getUpdateCondition, and the extra signal for a UDP-like socket's write side. */
  ghost function Synced(n: Net, w: Watch): Net {
    var m := Apply(n, if w.ready then Fire(w.c) else Consume(w.c));
    if w.always then Apply(m, Fire(w.c)) else m
  }

  /** collectSCTP_FDs for one descriptor and kind. */
  ghost function Registered(n: Net, w: Watch, l: Locals): Net {
    Apply(Synced(n, w), Link(w.c, l.Of(w.kind)))
  }

  ghost function RegisteredAll(n: Net, watch: seq<Watch>, l: Locals): Net {
    if watch == [] then n
    else Registered(RegisteredAll(n, watch[..|watch| - 1], l), watch[|watch| - 1], l)
  }

  ghost function Watched(watch: seq<Watch>): set<Condition> {
    if watch == [] then {} else Watched(watch[..|watch| - 1]) + {watch[|watch| - 1].c}
  }

  /** The local conditions that a condition gets as parents. */
  ghost function LocalsFor(watch: seq<Watch>, l: Locals, c: Condition): set<Condition> {
    if watch == [] then {}
    else
      LocalsFor(watch[..|watch| - 1], l, c)
        + if watch[|watch| - 1].c == c then {l.Of(watch[|watch| - 1].kind)} else {}
  }

  /** Some descriptor is ready at once. */
  predicate AnyReady(watch: seq<Watch>) {
    exists i :: 0 <= i < |watch| && (watch[i].ready || watch[i].always)
  }

  lemma SyncedAlert(n: Net, w: Watch, watched: set<Condition>, l: Locals)
    requires Alert(n, watched, l.Sides(), l.global) && w.c in n.parents && w.c != l.global
    ensures var m := Synced(n, w);
            && Alert(m, watched, l.Sides(), l.global) && m.parents == n.parents
            && (w.c in m.fired <==> w.ready || w.always)
            && (l.global in n.fired ==> l.global in m.fired)
            && (!w.ready && !w.always ==> (l.global in m.fired <==> l.global in n.fired))
  {
    var a := if w.ready then Fire(w.c) else Consume(w.c);
    StaysAlert(n, a, watched, l.Sides(), l.global);
    assert w.c in Above(n.parents, w.c);
    if w.always {
      StaysAlert(Apply(n, a), Fire(w.c), watched, l.Sides(), l.global);
    }
  }

  lemma RegisteredAlert(n: Net, w: Watch, watched: set<Condition>, l: Locals)
    requires l.Leveled() && Alert(n, watched, l.Sides(), l.global) && w.c in n.parents && w.c.level >= 2
    ensures var m := Registered(n, w, l);
            && Alert(m, watched + {w.c}, l.Sides(), l.global)
            && m.parents == n.parents[w.c := n.parents[w.c] + {l.Of(w.kind)}]
            && (l.global in m.fired <==> l.global in n.fired || w.ready || w.always)
  {
    SyncedAlert(n, w, watched, l);
    LinkedAlert(Synced(n, w), w.c, l.Of(w.kind), watched, l);
  }

  lemma LinkedAlert(n: Net, c: Condition, p: Condition, watched: set<Condition>, l: Locals)
    requires l.Leveled() && Alert(n, watched, l.Sides(), l.global) && c in n.parents && c.level >= 2 && p in l.Sides()
    ensures var m := Apply(n, Link(c, p));
            && Alert(m, watched + {c}, l.Sides(), l.global)
            && m.parents == n.parents[c := n.parents[c] + {p}]
            && (l.global in m.fired <==> l.global in n.fired || c in n.fired)
  {
    LinkWatches(n, c, p, watched, l.Sides(), l.global);
    LinkWakes(n, c, p, watched, l);
  }

  /** Linking fires the global condition exactly if the condition linked has fired. */
  lemma LinkWakes(n: Net, c: Condition, p: Condition, watched: set<Condition>, l: Locals)
    requires l.Leveled() && Alert(n, watched, l.Sides(), l.global) && c in n.parents && p in l.Sides() && p.level < c.level
    ensures l.global in Apply(n, Link(c, p)).fired <==> l.global in n.fired || c in n.fired
  {
    var g := n.parents[c := n.parents[c] + {p}];
    assert Reaches(g, l.global, l.global);
    assert Reaches(g, p, l.global);
  }

  /** Each watched condition gains exactly the local conditions of its entries as parents. */
  lemma {:induction false} RegisteredAllParents(n: Net, watch: seq<Watch>, l: Locals)
    requires forall i :: 0 <= i < |watch| ==> watch[i].c in n.parents
    ensures var m := RegisteredAll(n, watch, l);
            && m.parents.Keys == n.parents.Keys
            && forall c | c in n.parents :: m.parents[c] == n.parents[c] + LocalsFor(watch, l, c)
  {
    if watch != [] {
      var front, w := watch[..|watch| - 1], watch[|watch| - 1];
      RegisteredAllParents(n, front, l);
      RegisteredParents(RegisteredAll(n, front, l), w, l);
    }
  }

  lemma RegisteredParents(n: Net, w: Watch, l: Locals)
    requires w.c in n.parents
    ensures Registered(n, w, l).parents == n.parents[w.c := n.parents[w.c] + {l.Of(w.kind)}]
  {
  }

  /**
    * Registration leaves the call alert: every watched condition that has fired has woken the global
    * one, which has fired exactly when some descriptor was ready.
    */
  lemma {:induction false} RegisteredAllAlert(n: Net, watch: seq<Watch>, l: Locals)
    requires l.Leveled() && Alert(n, {}, l.Sides(), l.global) && l.global !in n.fired
    requires forall i :: 0 <= i < |watch| ==> watch[i].c in n.parents && watch[i].c.level >= 2
    ensures var m := RegisteredAll(n, watch, l);
            && Alert(m, Watched(watch), l.Sides(), l.global)
            && (l.global in m.fired <==> AnyReady(watch))
  {
    if watch != [] {
      var front, w := watch[..|watch| - 1], watch[|watch| - 1];
      RegisteredAllAlert(n, front, l);
      RegisteredAllParents(n, front, l);
      RegisteredAlert(RegisteredAll(n, front, l), w, Watched(front), l);
      AnyReadyLast(watch);
    }
  }

  lemma AnyReadyLast(watch: seq<Watch>)
    requires watch != []
    ensures var w := watch[|watch| - 1];
            AnyReady(watch) <==> AnyReady(watch[..|watch| - 1]) || w.ready || w.always
  {
    var front := watch[..|watch| - 1];
    assert forall i :: 0 <= i < |front| ==> front[i] == watch[i];
    if AnyReady(front) {
      var i :| 0 <= i < |front| && (front[i].ready || front[i].always);
      assert watch[i].ready || watch[i].always;
    }
  }

  // ---------------------------------------------------------------- collecting, as a value

  /** What a call reports. */
  datatype Report = Report(read: set<nat>, write: set<nat>, except: set<nat>, changes: nat)

  function Add(r: Report, kind: Kind, fd: nat): Report {
    var s := r.(changes := r.changes + 1);
    match kind
    case Read => s.(read := s.read + {fd})
    case Write => s.(write := s.write + {fd})
    case Except => s.(except := s.except + {fd})
  }

  ghost function CollectedAll(n: Net, watch: seq<Watch>, l: Locals): Net {
    if watch == [] then n
    else
      var w := watch[|watch| - 1];
      Apply(Apply(CollectedAll(n, watch[..|watch| - 1], l), Consume(w.c)), Unlink(w.c, l.Of(w.kind)))
  }

  /** An entry is reported if its condition had fired and no earlier entry watches the same condition
      (testing a condition clears it). */
  ghost function Reports(fired: set<Condition>, watch: seq<Watch>): Report {
    if watch == [] then Report({}, {}, {}, 0)
    else
      var front, w := watch[..|watch| - 1], watch[|watch| - 1];
      var r := Reports(fired, front);
      if w.c in fired && w.c !in Watched(front) then Add(r, w.kind, w.fd) else r
  }

  /** The entry is the first to watch its condition, and the condition has fired. */
  ghost predicate Seen(fired: set<Condition>, watch: seq<Watch>, i: nat)
    requires i < |watch|
  {
    watch[i].c in fired && forall j :: 0 <= j < i ==> watch[j].c != watch[i].c
  }

  function Side(r: Report, kind: Kind): set<nat> {
    match kind
    case Read => r.read
    case Write => r.write
    case Except => r.except
  }

  ghost predicate SomeSeen(fired: set<Condition>, watch: seq<Watch>, kind: Kind, fd: nat) {
    exists i :: 0 <= i < |watch| && watch[i].kind == kind && watch[i].fd == fd && Seen(fired, watch, i)
  }

  /** A descriptor is reported exactly if one of its entries for that side is seen. */
  lemma {:induction false} ReportsExactly(fired: set<Condition>, watch: seq<Watch>, kind: Kind, fd: nat)
    ensures fd in Side(Reports(fired, watch), kind) <==> SomeSeen(fired, watch, kind, fd)
  {
    if watch != [] {
      ReportsExactly(fired, watch[..|watch| - 1], kind, fd);
      SomeSeenLast(fired, watch, kind, fd);
    }
  }

  lemma SomeSeenLast(fired: set<Condition>, watch: seq<Watch>, kind: Kind, fd: nat)
    requires watch != []
    ensures var front, w := watch[..|watch| - 1], watch[|watch| - 1];
            SomeSeen(fired, watch, kind, fd)
            <==> SomeSeen(fired, front, kind, fd) || (w.kind == kind && w.fd == fd && w.c in fired && w.c !in Watched(front))
  {
    var n := |watch| - 1;
    var front := watch[..n];
    WatchedIff(front, watch[n].c);
    assert Seen(fired, watch, n) <==> watch[n].c in fired && watch[n].c !in Watched(front);
    if SomeSeen(fired, front, kind, fd) {
      var i :| 0 <= i < n && front[i].kind == kind && front[i].fd == fd && Seen(fired, front, i);
      assert Seen(fired, watch, i);
    }
    if SomeSeen(fired, watch, kind, fd) {
      var i :| 0 <= i <= n && watch[i].kind == kind && watch[i].fd == fd && Seen(fired, watch, i);
      assert i < n ==> Seen(fired, front, i);
    }
  }

  /** The entries that are seen. */
  ghost function SeenEntries(fired: set<Condition>, watch: seq<Watch>): set<nat> {
    set i: nat | i < |watch| && Seen(fired, watch, i)
  }

  /** A call returns how many of its entries are seen. */
  lemma {:induction false} ChangesAreSeen(fired: set<Condition>, watch: seq<Watch>)
    ensures Reports(fired, watch).changes == |SeenEntries(fired, watch)|
  {
    if watch != [] {
      var n := |watch| - 1;
      var front := watch[..n];
      ChangesAreSeen(fired, front);
      SeenSize(fired, watch);
    }
  }

  lemma SeenSize(fired: set<Condition>, watch: seq<Watch>)
    requires watch != []
    ensures var n := |watch| - 1;
            |SeenEntries(fired, watch)|
            == |SeenEntries(fired, watch[..n])| + if watch[n].c in fired && watch[n].c !in Watched(watch[..n]) then 1 else 0
  {
    SeenLast(fired, watch);
    OneMore(SeenEntries(fired, watch[..|watch| - 1]), |watch| - 1);
  }

  lemma SeenLast(fired: set<Condition>, watch: seq<Watch>)
    requires watch != []
    ensures var n := |watch| - 1;
            SeenEntries(fired, watch)
            == SeenEntries(fired, watch[..n])
               + if watch[n].c in fired && watch[n].c !in Watched(watch[..n]) then {n} else {}
    ensures |watch| - 1 !in SeenEntries(fired, watch[..|watch| - 1])
  {
    var n := |watch| - 1;
    WatchedIff(watch[..n], watch[n].c);
    assert Seen(fired, watch, n) <==> watch[n].c in fired && watch[n].c !in Watched(watch[..n]);
    assert forall i: nat :: i < n ==> Seen(fired, watch[..n], i) == Seen(fired, watch, i);
  }

  lemma OneMore(s: set<nat>, x: nat)
    requires x !in s
    ensures |s + {x}| == |s| + 1
  {
  }

  lemma {:induction false} WatchedIff(watch: seq<Watch>, c: Condition)
    ensures c in Watched(watch) <==> exists i :: 0 <= i < |watch| && watch[i].c == c
  {
    if watch != [] {
      WatchedIff(watch[..|watch| - 1], c);
      assert forall i :: 0 <= i < |watch| - 1 ==> watch[..|watch| - 1][i] == watch[i];
    }
  }

  lemma {:induction false} CollectedAllIs(n: Net, watch: seq<Watch>, l: Locals)
    requires forall i :: 0 <= i < |watch| ==> watch[i].c in n.parents
    ensures var m := CollectedAll(n, watch, l);
            && m.fired == n.fired - Watched(watch)
            && m.parents.Keys == n.parents.Keys
            && forall c | c in n.parents :: m.parents[c] == n.parents[c] - LocalsFor(watch, l, c)
  {
    if watch != [] {
      CollectedAllIs(n, watch[..|watch| - 1], l);
    }
  }

  /** What other threads may do during a call: anything that leaves alone the call's own conditions,
      which they do not know. */
  ghost predicate Outside(a: Act, l: Locals) {
    && Foreign(a, l.Sides(), l.global)
    && match a
       case Link(_, p) => p !in l.Sides()
       case Unlink(_, p) => p !in l.Sides()
       case _ => true
  }

  ghost predicate AllOutside(acts: seq<Act>, l: Locals) {
    forall k :: 0 <= k < |acts| ==> Outside(acts[k], l)
  }

  /** `m` has the links of `n` and, on top of them, those of the call. */
  ghost predicate LinkedOn(n: Net, m: Net, watch: seq<Watch>, l: Locals) {
    && m.parents.Keys == n.parents.Keys
    && forall c | c in n.parents :: m.parents[c] == n.parents[c] + LocalsFor(watch, l, c)
  }

  lemma OutsideKeepsLinks(n: Net, m: Net, a: Act, watch: seq<Watch>, l: Locals)
    requires LinkedOn(n, m, watch, l) && Outside(a, l)
    ensures LinkedOn(Apply(n, a), Apply(m, a), watch, l)
  {
    match a
    case Link(c, p) =>
    case Unlink(c, p) =>
      if c in n.parents {
        OnlyLocals(watch, l, c);
        assert (n.parents[c] + LocalsFor(watch, l, c)) - {p} == (n.parents[c] - {p}) + LocalsFor(watch, l, c);
      }
    case _ =>
  }

  lemma {:induction false} ActsKeepLinks(n: Net, m: Net, acts: seq<Act>, watch: seq<Watch>, l: Locals)
    requires LinkedOn(n, m, watch, l) && AllOutside(acts, l)
    ensures LinkedOn(ApplyAll(n, acts), ApplyAll(m, acts), watch, l)
    decreases |acts|
  {
    if acts != [] {
      OutsideKeepsLinks(n, m, acts[0], watch, l);
      ActsKeepLinks(Apply(n, acts[0]), Apply(m, acts[0]), acts[1..], watch, l);
    }
  }

  /** Nothing leads to the call's side conditions. */
  ghost predicate Unknown(n: Net, l: Locals, c: Condition) {
    c in n.parents ==> n.parents[c] !! l.Sides()
  }

  lemma {:induction false} StaysUnknown(n: Net, acts: seq<Act>, l: Locals, c: Condition)
    requires Unknown(n, l, c) && AllOutside(acts, l)
    ensures Unknown(ApplyAll(n, acts), l, c) && ApplyAll(n, acts).parents.Keys == n.parents.Keys
    decreases |acts|
  {
    if acts != [] {
      StaysUnknown(Apply(n, acts[0]), acts[1..], l, c);
    }
  }

  /** The network when the call starts to wait, after the acts of others since it registered. */
  ghost function AtWait(n: Net, watch: seq<Watch>, l: Locals, before: seq<Act>): Net {
    ApplyAll(RegisteredAll(n, watch, l), before)
  }

  /** The wait ends: the global condition had fired, or the wait was signalled, or its time was over. */
  ghost function Woken(n: Net, l: Locals, signalled: bool): bool {
    l.global in n.fired || signalled
  }

  /** The network when the call collects, after the acts of others since its wait ended. */
  ghost function AtCollect(n: Net, watch: seq<Watch>, l: Locals, before: seq<Act>, signalled: bool, after: seq<Act>): Net {
    var m := AtWait(n, watch, l, before);
    ApplyAll(if Woken(m, l, signalled) then Apply(m, Consume(l.global)) else m, after)
  }

  /** A whole call leaves every parent set as the other threads made it meanwhile. */
  lemma ParentsRestored(n: Net, watch: seq<Watch>, l: Locals, before: seq<Act>, signalled: bool, after: seq<Act>, c: Condition)
    requires forall i :: 0 <= i < |watch| ==> watch[i].c in n.parents
    requires AllOutside(before, l) && AllOutside(after, l) && c in n.parents && Unknown(n, l, c)
    ensures var left := CollectedAll(AtCollect(n, watch, l, before, signalled, after), watch, l);
            var others := ApplyAll(ApplyAll(n, before), after);
            c in left.parents && c in others.parents && left.parents[c] == others.parents[c]
  {
    var m := AtWait(n, watch, l, before);
    RegisteredAllParents(n, watch, l);
    ActsKeepLinks(n, RegisteredAll(n, watch, l), before, watch, l);
    StaysUnknown(n, before, l, c);
    ActsKeepLinks(ApplyAll(n, before), if Woken(m, l, signalled) then Apply(m, Consume(l.global)) else m, after, watch, l);
    StaysUnknown(ApplyAll(n, before), after, l, c);
    assert forall i :: 0 <= i < |watch| ==> watch[i].c in ApplyAll(ApplyAll(n, before), after).parents;
    CollectedAllIs(AtCollect(n, watch, l, before, signalled, after), watch, l);
    OnlyLocals(watch, l, c);
  }

  /** Collecting takes what has fired away from every other call: one that collects right afterwards
      reports a descriptor exactly if a condition of its own, not watched by the first, has fired. */
  lemma TakenByAnother(n: Net, first: seq<Watch>, l: Locals, second: seq<Watch>, kind: Kind, fd: nat)
    requires Distinct(second) && forall i :: 0 <= i < |first| ==> first[i].c in n.parents
    ensures fd in Side(Reports(CollectedAll(n, first, l).fired, second), kind)
            <==> exists i :: 0 <= i < |second| && second[i].kind == kind && second[i].fd == fd
                             && second[i].c in n.fired && forall j :: 0 <= j < |first| ==> first[j].c != second[i].c
  {
    CollectedAllIs(n, first, l);
    ReportsFired(CollectedAll(n, first, l).fired, second, kind, fd);
    forall i | 0 <= i < |second|
      ensures second[i].c in Watched(first) <==> exists j :: 0 <= j < |first| && first[j].c == second[i].c
    {
      WatchedIff(first, second[i].c);
    }
  }

  /** So of two calls that watch one condition, which fires once, the second to collect reports nothing. */
  lemma SecondReportsNothing(n: Net, w: Watch, l: Locals)
    requires w.c in n.parents && w.c in n.fired
    ensures w.fd in Side(Reports(n.fired, [w]), w.kind)
    ensures w.fd !in Side(Reports(CollectedAll(n, [w], l).fired, [w]), w.kind)
  {
    ReportsFired(n.fired, [w], w.kind, w.fd);
    assert [w][0] == w;
    TakenByAnother(n, [w], l, [w], w.kind, w.fd);
  }

  lemma {:induction false} FiredStays(n: Net, acts: seq<Act>, c: Condition)
    requires c in n.fired && Consume(c) !in acts
    ensures c in ApplyAll(n, acts).fired
    decreases |acts|
  {
    if acts != [] {
      assert acts[0] in acts && acts[0] != Consume(c);
      FiredStays(Apply(n, acts[0]), acts[1..], c);
    }
  }

  ghost predicate Distinct(watch: seq<Watch>) {
    forall i, j :: 0 <= i < j < |watch| ==> watch[i].c != watch[j].c
  }

  /**
    * A whole call, with any acts of other threads before and after its wait.  If a watched condition
    * has fired or a descriptor is ready when the wait starts, the wait does not wait; unless somebody
    * consumes it, the condition of a descriptor that was ready, or one that had fired then, is still
    * there to be reported; and a descriptor is reported exactly if its condition has fired.
    */
  lemma WholeCall(n: Net, watch: seq<Watch>, l: Locals, before: seq<Act>, signalled: bool, after: seq<Act>)
    requires l.Leveled() && Alert(n, {}, l.Sides(), l.global) && l.global !in n.fired && Distinct(watch)
    requires forall i :: 0 <= i < |watch| ==> watch[i].c in n.parents && watch[i].c.level >= 2
    requires AllOutside(before, l) && AllOutside(after, l)
    ensures var m := AtWait(n, watch, l, before);
            var k := AtCollect(n, watch, l, before, signalled, after);
            && (AnyReady(watch) ==> Woken(m, l, signalled))
            && (forall i :: 0 <= i < |watch| && watch[i].c in m.fired ==> Woken(m, l, signalled))
            && (forall i :: 0 <= i < |watch| && watch[i].c in m.fired && Consume(watch[i].c) !in after ==> watch[i].c in k.fired)
            && (forall i :: 0 <= i < |watch| && ReadyAtOnce(watch[i]) && Consume(watch[i].c) !in before + after ==> watch[i].c in k.fired)
            && (forall kind, fd :: fd in Side(Reports(k.fired, watch), kind)
                  <==> exists i :: 0 <= i < |watch| && watch[i].kind == kind && watch[i].fd == fd && watch[i].c in k.fired)
  {
    var m := AtWait(n, watch, l, before);
    var k := AtCollect(n, watch, l, before, signalled, after);
    WakesInTime(n, watch, l, before);
    forall i | 0 <= i < |watch| && watch[i].c in m.fired && Consume(watch[i].c) !in after ensures watch[i].c in k.fired {
      FiredStays(if Woken(m, l, signalled) then Apply(m, Consume(l.global)) else m, after, watch[i].c);
    }
    forall i | 0 <= i < |watch| && ReadyAtOnce(watch[i]) && Consume(watch[i].c) !in before + after ensures watch[i].c in m.fired {
      ReadyFires(n, watch, l, i);
      FiredStays(RegisteredAll(n, watch, l), before, watch[i].c);
    }
    forall kind, fd ensures fd in Side(Reports(k.fired, watch), kind)
      <==> exists i :: 0 <= i < |watch| && watch[i].kind == kind && watch[i].fd == fd && watch[i].c in k.fired {
      ReportsFired(k.fired, watch, kind, fd);
    }
  }

  // ----- What a call reports, and nothing else -----

  /** The entry's condition is signalled while the call registers it. */
  predicate ReadyAtOnce(w: Watch) {
    w.ready || w.always
  }

  /** A condition on a lower layer, or on the same one, does not lead to `d`. */
  lemma {:induction false} ReachesDown(g: map<Condition, set<Condition>>, c: Condition, d: Condition)
    requires Reaches(g, c, d)
    ensures c == d || d.level < c.level
    decreases c.level
  {
    if c != d {
      var p :| p in g[c] && p.level < c.level && Reaches(g, p, d);
      ReachesDown(g, p, d);
    }
  }

  lemma AboveIsLower(g: map<Condition, set<Condition>>, c: Condition, d: Condition)
    requires c != d && c.level <= d.level
    ensures d !in Above(g, c)
  {
    if Reaches(g, c, d) {
      ReachesDown(g, c, d);
    }
  }

  /** What registering one entry leaves of its condition, and of another one no further down. */
  lemma RegisteredFires(n: Net, w: Watch, l: Locals, c: Condition)
    requires l.Leveled() && w.c in n.parents && w.c.level >= 2 && c.level >= 2
    ensures c == w.c ==> (c in Registered(n, w, l).fired <==> ReadyAtOnce(w))
    ensures c != w.c && c in n.fired ==> c in Registered(n, w, l).fired
    ensures c != w.c && w.c.level <= c.level ==> (c in Registered(n, w, l).fired <==> c in n.fired)
  {
    var m := Synced(n, w);
    assert w.c in Above(n.parents, w.c);
    AboveIsLower(m.parents[w.c := m.parents[w.c] + {l.Of(w.kind)}], l.Of(w.kind), c);
    if c != w.c && w.c.level <= c.level {
      AboveIsLower(n.parents, w.c, c);
    }
  }

  lemma {:induction false} ReadyFires(n: Net, watch: seq<Watch>, l: Locals, i: nat)
    requires l.Leveled() && Distinct(watch) && i < |watch| && ReadyAtOnce(watch[i])
    requires forall j :: 0 <= j < |watch| ==> watch[j].c in n.parents && watch[j].c.level >= 2
    ensures watch[i].c in RegisteredAll(n, watch, l).fired
  {
    var last := |watch| - 1;
    var front := watch[..last];
    assert watch[last].c in RegisteredAll(n, front, l).parents by {
      RegisteredAllParents(n, front, l);
    }
    RegisteredFires(RegisteredAll(n, front, l), watch[last], l, watch[i].c);
    if i < last {
      ReadyFires(n, front, l, i);
    }
  }

  /** Once all its entries are registered, a condition has fired exactly if its descriptor is ready,
      as the conditions watched are on one layer. */
  lemma {:induction false} RegisteredAllFires(n: Net, watch: seq<Watch>, l: Locals, i: nat)
    requires l.Leveled() && Distinct(watch) && i < |watch|
    requires forall j :: 0 <= j < |watch| ==> watch[j].c in n.parents && watch[j].c.level == 2
    ensures watch[i].c in RegisteredAll(n, watch, l).fired <==> ReadyAtOnce(watch[i])
  {
    var last := |watch| - 1;
    var front := watch[..last];
    assert watch[last].c in RegisteredAll(n, front, l).parents by {
      RegisteredAllParents(n, front, l);
    }
    RegisteredFires(RegisteredAll(n, front, l), watch[last], l, watch[i].c);
    if i < last {
      RegisteredAllFires(n, front, l, i);
    }
  }

  /** The act fires the condition: it signals one that leads to it, or links one that has fired. */
  ghost predicate Fires(n: Net, a: Act, c: Condition) {
    match a
    case Fire(d) => c in Above(n.parents, d)
    case Link(d, p) => d in n.parents && d in n.fired && c in Above(n.parents[d := n.parents[d] + {p}], p)
    case _ => false
  }

  /** One of the acts does. */
  ghost predicate FiredBySome(n: Net, acts: seq<Act>, c: Condition) {
    exists k :: 0 <= k < |acts| && Fires(ApplyAll(n, acts[..k]), acts[k], c)
  }

  /** After any acts, what has fired had fired before or was fired by one of them; and if none consumes
      it, the other way round. */
  lemma {:induction false} ActsFire(n: Net, acts: seq<Act>, c: Condition)
    ensures c in ApplyAll(n, acts).fired ==> c in n.fired || FiredBySome(n, acts, c)
    ensures Consume(c) !in acts && (c in n.fired || FiredBySome(n, acts, c)) ==> c in ApplyAll(n, acts).fired
    decreases |acts|
  {
    if acts != [] {
      var front, a := acts[..|acts| - 1], acts[|acts| - 1];
      assert acts == front + [a];
      ActsFire(n, front, c);
      ApplyAllLast(n, front, a);
      assert FiredBySome(n, acts, c) <==> FiredBySome(n, front, c) || Fires(ApplyAll(n, front), a, c) by {
        SomeLast(n, front, a, c);
      }
    }
  }

  lemma SomeLast(n: Net, front: seq<Act>, a: Act, c: Condition)
    ensures FiredBySome(n, front + [a], c) <==> FiredBySome(n, front, c) || Fires(ApplyAll(n, front), a, c)
  {
    var acts := front + [a];
    assert acts[..|front|] == front;
    assert forall k :: 0 <= k < |front| ==> acts[..k] == front[..k];
    if FiredBySome(n, front, c) {
      var k :| 0 <= k < |front| && Fires(ApplyAll(n, front[..k]), front[k], c);
      assert Fires(ApplyAll(n, acts[..k]), acts[k], c);
    }
    if Fires(ApplyAll(n, front), a, c) {
      assert Fires(ApplyAll(n, acts[..|front|]), acts[|front|], c);
    }
    if FiredBySome(n, acts, c) {
      var k :| 0 <= k < |acts| && Fires(ApplyAll(n, acts[..k]), acts[k], c);
      assert k < |front| ==> Fires(ApplyAll(n, front[..k]), front[k], c);
    }
  }

  /** Somebody fires the condition between registration and collection. */
  ghost predicate FiredMeanwhile(n: Net, watch: seq<Watch>, l: Locals, before: seq<Act>, signalled: bool, after: seq<Act>,
                                 c: Condition) {
    || FiredBySome(RegisteredAll(n, watch, l), before, c)
    || FiredBySome(AtCollect(n, watch, l, before, signalled, []), after, c)
  }

  /**
    * The condition of a descriptor that was not ready and that nobody fired meanwhile has not fired
    * when the call collects, so the descriptor is not reported; and unless somebody consumes it, the
    * condition of any other has.
    */
  lemma FiredExactly(n: Net, watch: seq<Watch>, l: Locals, before: seq<Act>, signalled: bool, after: seq<Act>, i: nat)
    requires l.Leveled() && Distinct(watch) && i < |watch|
    requires forall j :: 0 <= j < |watch| ==> watch[j].c in n.parents && watch[j].c.level == 2
    ensures var c, k := watch[i].c, AtCollect(n, watch, l, before, signalled, after);
            var cause := ReadyAtOnce(watch[i]) || FiredMeanwhile(n, watch, l, before, signalled, after, c);
            && (c in k.fired ==> cause)
            && (cause && Consume(c) !in before + after ==> c in k.fired)
  {
    var c := watch[i].c;
    RegisteredAllFires(n, watch, l, i);
    ActsFire(RegisteredAll(n, watch, l), before, c);
    ActsFire(AtCollect(n, watch, l, before, signalled, []), after, c);
  }

  lemma WakesInTime(n: Net, watch: seq<Watch>, l: Locals, before: seq<Act>)
    requires l.Leveled() && Alert(n, {}, l.Sides(), l.global) && l.global !in n.fired
    requires forall i :: 0 <= i < |watch| ==> watch[i].c in n.parents && watch[i].c.level >= 2
    requires AllOutside(before, l)
    ensures var m := AtWait(n, watch, l, before);
            && (AnyReady(watch) ==> l.global in m.fired)
            && (forall i :: 0 <= i < |watch| && watch[i].c in m.fired ==> l.global in m.fired)
  {
    var m := AtWait(n, watch, l, before);
    RegisteredAllAlert(n, watch, l);
    if AnyReady(watch) {
      FiredStays(RegisteredAll(n, watch, l), before, l.global);
    }
    forall i | 0 <= i < |watch| && watch[i].c in m.fired ensures l.global in m.fired {
      WatchedIff(watch, watch[i].c);
      NoLostWakeUp(RegisteredAll(n, watch, l), before, Watched(watch), l.Sides(), l.global, watch[i].c);
    }
  }

  /** With distinct conditions, a descriptor is reported exactly if its condition has fired. */
  lemma ReportsFired(fired: set<Condition>, watch: seq<Watch>, kind: Kind, fd: nat)
    requires Distinct(watch)
    ensures fd in Side(Reports(fired, watch), kind)
            <==> exists i :: 0 <= i < |watch| && watch[i].kind == kind && watch[i].fd == fd && watch[i].c in fired
  {
    ReportsExactly(fired, watch, kind, fd);
    assert forall i :: 0 <= i < |watch| ==> (Seen(fired, watch, i) <==> watch[i].c in fired);
  }

  lemma {:induction false} OnlyLocals(watch: seq<Watch>, l: Locals, c: Condition)
    ensures LocalsFor(watch, l, c) <= l.Sides()
  {
    if watch != [] {
      OnlyLocals(watch[..|watch| - 1], l, c);
    }
  }

  // ---------------------------------------------------------------- the call's two locked regions

  method NewLocals(ghost world: set<Condition>) returns (l: Locals)
    requires Layered(world)
    ensures fresh(l.All()) && l.Leveled() && l.All() !! world
    ensures forall p <- l.All() :: !p.fired && p.parentSet == if p == l.global then {} else {l.global}
  {
    var global := new Condition(0);
    var read := new Condition(1);
    var write := new Condition(1);
    var except := new Condition(1);
    read.parentSet, write.parentSet, except.parentSet := {global}, {global}, {global};
    l := Locals(global, read, write, except);
  }

  /** Registration, one entry after the other. */
  method Register(watch: seq<Watch>, l: Locals, ghost all: set<Condition>)
    requires Layered(all) && l.All() <= all && l.Leveled()
    requires forall i :: 0 <= i < |watch| ==> watch[i].c in all && watch[i].c.level >= 2
    modifies all
    ensures Layered(all) && Snapshot(all) == RegisteredAll(old(Snapshot(all)), watch, l)
  {
    for i := 0 to |watch|
      invariant Layered(all) && Snapshot(all) == RegisteredAll(old(Snapshot(all)), watch[..i], l)
    {
      var w := watch[i];
      assert watch[..i + 1][..i] == watch[..i];
      if !w.ready {
        var _ := w.c.TestFired(all);
      } else {
        w.c.Broadcast(all);
      }
      if w.always {
        w.c.Broadcast(all);
      }
      w.c.AddParent(l.Of(w.kind), all);
    }
    assert watch[..|watch|] == watch;
  }

  /** Collection: report and clear what fired, and take the links away again. */
  method Collect(watch: seq<Watch>, l: Locals, ghost all: set<Condition>) returns (r: Report)
    requires Layered(all)
    requires forall i :: 0 <= i < |watch| ==> watch[i].c in all
    modifies all
    ensures Layered(all) && Snapshot(all) == CollectedAll(old(Snapshot(all)), watch, l)
    ensures r == Reports(old(Snapshot(all)).fired, watch)
    ensures r.changes == |SeenEntries(old(Snapshot(all)).fired, watch)|
  {
    ghost var n := Snapshot(all);
    ChangesAreSeen(n.fired, watch);
    r := Report({}, {}, {}, 0);
    for i := 0 to |watch|
      invariant Layered(all) && Snapshot(all) == CollectedAll(n, watch[..i], l)
      invariant r == Reports(n.fired, watch[..i])
    {
      var w := watch[i];
      assert watch[..i + 1][..i] == watch[..i];
      CollectedAllIs(n, watch[..i], l);
      assert w.c.fired <==> w.c in Snapshot(all).fired;
      var fired := w.c.TestFired(all);
      if fired {
        r := Add(r, w.kind, w.fd);
      }
      w.c.RemoveParent(l.Of(w.kind), all);
    }
    assert watch[..|watch|] == watch;
  }

  // ----- The whole call on the objects -----

  /** The conditions of an act exist, and a link goes to a lower layer. */
  ghost predicate Known(a: Act, world: set<Condition>) {
    match a
    case Fire(c) => c in world
    case Link(c, p) => c in world && p in world && p.level < c.level
    case Unlink(c, p) => c in world && p in world
    case Consume(c) => c in world
  }

  lemma {:induction false} ApplyAllLast(n: Net, acts: seq<Act>, a: Act)
    ensures ApplyAll(n, acts + [a]) == Apply(ApplyAll(n, acts), a)
    decreases |acts|
  {
    if acts == [] {
      assert [] + [a] == [a] && [a][1..] == [];
    } else {
      assert (acts + [a])[1..] == acts[1..] + [a];
      ApplyAllLast(Apply(n, acts[0]), acts[1..], a);
    }
  }

  /** Other threads act. */
  method Others(acts: seq<Act>, ghost world: set<Condition>)
    requires Layered(world) && forall k :: 0 <= k < |acts| ==> Known(acts[k], world)
    modifies world
    ensures Layered(world) && Snapshot(world) == ApplyAll(old(Snapshot(world)), acts)
  {
    for i := 0 to |acts|
      invariant Layered(world) && Snapshot(world) == ApplyAll(old(Snapshot(world)), acts[..i])
    {
      Other(acts[i], world);
      assert acts[..i + 1] == acts[..i] + [acts[i]];
      ApplyAllLast(old(Snapshot(world)), acts[..i], acts[i]);
    }
    assert acts[..|acts|] == acts;
  }

  method Other(a: Act, ghost world: set<Condition>)
    requires Layered(world) && Known(a, world)
    modifies world
    ensures Layered(world) && Snapshot(world) == Apply(old(Snapshot(world)), a)
  {
    match a {
      case Fire(c) => c.Broadcast(world);
      case Link(c, p) => c.AddParent(p, world);
      case Unlink(c, p) => c.RemoveParent(p, world);
      case Consume(c) => var _ := c.TestFired(world);
    }
  }

  /** A network with the new conditions of a call. */
  ghost function WithLocals(n: Net, l: Locals): Net {
    var g := map c | c in n.parents.Keys + l.All() ::
               if c in l.Sides() then {l.global} else if c == l.global || c !in n.parents then {} else n.parents[c];
    Net(g, n.fired)
  }

  /**
    * ext_select on SCTP descriptors.  Other threads act before the wait ends and again before the
    * result is collected; conditions made meanwhile count as there from the start, without links.
    */
  method Select(watch: seq<Watch>, before: seq<Act>, signalled: bool, after: seq<Act>, ghost world: set<Condition>)
    returns (woken: bool, r: Report, l: Locals)
    requires Layered(world)
    requires forall i :: 0 <= i < |watch| ==> watch[i].c in world && watch[i].c.level >= 2
    requires forall k :: 0 <= k < |before| ==> Known(before[k], world)
    requires forall k :: 0 <= k < |after| ==> Known(after[k], world)
    modifies world
    ensures fresh(l.All()) && Layered(world + l.All())
    ensures var n := WithLocals(old(Snapshot(world)), l);
            && woken == Woken(AtWait(n, watch, l, before), l, signalled)
            && r == Reports(AtCollect(n, watch, l, before, signalled, after).fired, watch)
            && r.changes == |SeenEntries(AtCollect(n, watch, l, before, signalled, after).fired, watch)|
            && Snapshot(world + l.All()) == CollectedAll(AtCollect(n, watch, l, before, signalled, after), watch, l)
    ensures AnyReady(watch) ==> woken
    ensures LeftAs(world, ApplyAll(ApplyAll(WithLocals(old(Snapshot(world)), l), before), after))
  {
    l := NewLocals(world);
    ghost var all := world + l.All();
    ghost var n := Snapshot(all);
    SelectBegins(world, l, watch, before, signalled, after);
    woken, r := SelectOn(watch, before, signalled, after, l, all);
    LeftAsIs(world, all, CollectedAll(AtCollect(n, watch, l, before, signalled, after), watch, l),
             ApplyAll(ApplyAll(n, before), after));
  }

  /** What a call with fresh conditions can be sure of. */
  lemma SelectBegins(world: set<Condition>, l: Locals, watch: seq<Watch>, before: seq<Act>, signalled: bool, after: seq<Act>)
    requires Layered(world) && l.Leveled() && l.All() !! world
    requires forall p <- l.All() :: !p.fired && p.parentSet == if p == l.global then {} else {l.global}
    requires forall i :: 0 <= i < |watch| ==> watch[i].c in world && watch[i].c.level >= 2
    requires forall k :: 0 <= k < |before| ==> Known(before[k], world)
    requires forall k :: 0 <= k < |after| ==> Known(after[k], world)
    ensures Layered(world + l.All())
    ensures var n := Snapshot(world + l.All());
            && n == WithLocals(Snapshot(world), l)
            && (AnyReady(watch) ==> Woken(AtWait(n, watch, l, before), l, signalled))
            && ParentsKept(world, n, watch, l, before, signalled, after)
  {
    var n := Snapshot(world + l.All());
    LocalsOnTop(world, l);
    FreshLocalsAlert(world, l);
    assert AnyReady(watch) ==> Woken(AtWait(n, watch, l, before), l, signalled) by {
      StrangersOutside(before, world, l);
      WakesInTime(n, watch, l, before);
    }
    AllRestored(world, n, watch, l, before, signalled, after);
  }

  /** The phases of a call with its conditions made. */
  method SelectOn(watch: seq<Watch>, before: seq<Act>, signalled: bool, after: seq<Act>, l: Locals, ghost all: set<Condition>)
    returns (woken: bool, r: Report)
    requires Layered(all) && l.All() <= all && l.Leveled()
    requires forall i :: 0 <= i < |watch| ==> watch[i].c in all && watch[i].c.level >= 2
    requires forall k :: 0 <= k < |before| ==> Known(before[k], all)
    requires forall k :: 0 <= k < |after| ==> Known(after[k], all)
    modifies all
    ensures Layered(all)
    ensures var n := old(Snapshot(all));
            && woken == Woken(AtWait(n, watch, l, before), l, signalled)
            && r == Reports(AtCollect(n, watch, l, before, signalled, after).fired, watch)
            && r.changes == |SeenEntries(AtCollect(n, watch, l, before, signalled, after).fired, watch)|
            && Snapshot(all) == CollectedAll(AtCollect(n, watch, l, before, signalled, after), watch, l)
  {
    Register(watch, l, all);
    Others(before, all);
    assert l.global.fired <==> l.global in Snapshot(all).fired;
    woken := l.global.TimedWait(signalled, all);
    Others(after, all);
    r := Collect(watch, l, all);
  }

  /** The conditions have the parents that the network says. */
  ghost predicate LeftAs(world: set<Condition>, n: Net)
    reads world
  {
    forall c <- world :: c in n.parents && c.parentSet == n.parents[c]
  }

  ghost predicate ParentsKept(world: set<Condition>, n: Net, watch: seq<Watch>, l: Locals, before: seq<Act>,
                              signalled: bool, after: seq<Act>) {
    var left := CollectedAll(AtCollect(n, watch, l, before, signalled, after), watch, l);
    var others := ApplyAll(ApplyAll(n, before), after);
    forall c <- world :: c in left.parents && c in others.parents && left.parents[c] == others.parents[c]
  }

  lemma AllRestored(world: set<Condition>, n: Net, watch: seq<Watch>, l: Locals, before: seq<Act>, signalled: bool, after: seq<Act>)
    requires world !! l.All() && world <= n.parents.Keys && forall c <- world :: Unknown(n, l, c)
    requires forall i :: 0 <= i < |watch| ==> watch[i].c in n.parents
    requires forall k :: 0 <= k < |before| ==> Known(before[k], world)
    requires forall k :: 0 <= k < |after| ==> Known(after[k], world)
    ensures ParentsKept(world, n, watch, l, before, signalled, after)
  {
    StrangersOutside(before, world, l);
    StrangersOutside(after, world, l);
    forall c <- world
      ensures var left := CollectedAll(AtCollect(n, watch, l, before, signalled, after), watch, l);
              var others := ApplyAll(ApplyAll(n, before), after);
              c in left.parents && c in others.parents && left.parents[c] == others.parents[c]
    {
      ParentsRestored(n, watch, l, before, signalled, after, c);
    }
  }

  lemma LeftAsIs(world: set<Condition>, all: set<Condition>, left: Net, others: Net)
    requires world <= all && Snapshot(all) == left
    requires forall c <- world :: c in left.parents && c in others.parents && left.parents[c] == others.parents[c]
    ensures LeftAs(world, others)
  {
    forall c <- world ensures c in others.parents && c.parentSet == others.parents[c] {
      assert c.parentSet == Snapshot(all).parents[c];
    }
  }

  /** The acts of threads that do not know a call's conditions. */
  lemma StrangersOutside(acts: seq<Act>, world: set<Condition>, l: Locals)
    requires world !! l.All() && forall k :: 0 <= k < |acts| ==> Known(acts[k], world)
    ensures AllOutside(acts, l)
  {
  }

  lemma LocalsOnTop(world: set<Condition>, l: Locals)
    requires Layered(world) && l.Leveled() && l.All() !! world
    requires forall p <- l.All() :: !p.fired && p.parentSet == if p == l.global then {} else {l.global}
    ensures Snapshot(world + l.All()) == WithLocals(Snapshot(world), l)
    ensures forall c <- world :: Unknown(Snapshot(world + l.All()), l, c)
  {
  }

  /** A fresh set of local conditions is alert, and no condition of the world leads to it. */
  lemma FreshLocalsAlert(world: set<Condition>, l: Locals)
    requires Layered(world) && l.Leveled() && l.All() !! world
    requires forall p <- l.All() :: !p.fired && p.parentSet == if p == l.global then {} else {l.global}
    ensures var n := Snapshot(world + l.All());
            && Layered(world + l.All())
            && Alert(n, {}, l.Sides(), l.global) && l.global !in n.fired
            && forall c | c in n.parents && c.level >= 2 :: n.parents[c] !! l.Sides()
  {
  }
}
