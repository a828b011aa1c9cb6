/**
  * Condition variables that fire their parents: what a broadcast reaches, and why ext_select cannot
  * miss the firing of a condition it watches.
  */
module Conditions {

  /** For each condition its parent set, and which conditions have fired. */
  datatype Net = Net(parents: map<Condition, set<Condition>>, fired: set<Condition>)

  class Condition {
    var fired: bool
    var parentSet: set<Condition>
    /** Conditions are layered: queue, update, select and global conditions. */
    ghost const level: nat

    constructor (ghost level: nat)
      ensures !this.fired && this.parentSet == {} && this.level == level
    {
      fired, parentSet, this.level := false, {}, level;
    }

    /** Condition::broadcast (and signal, which marks the same conditions). */
    method Broadcast(ghost world: set<Condition>)
      requires this in world && Layered(world)
      modifies world
      ensures Snapshot(world) == Apply(old(Snapshot(world)), Fire(this)) && Layered(world)
      decreases level
    {
      ghost var g, before := Parents(world), Fired(world);
      fired := true;
      var todo := parentSet;
      assert Fired(world) == before + {this};
      AboveNone(g);
      while todo != {}
        invariant Layered(world) && todo <= g[this] && Parents(world) == g
        invariant Fired(world) == before + {this} + AboveAny(g, g[this] - todo)
        decreases todo
      {
        var p :| p in todo;
        assert p in Parents(world)[this];
        p.Broadcast(world);
        AboveGrows(g, g[this], todo, p);
        todo := todo - {p};
      }
      assert g[this] - {} == g[this];
      AboveIs(g, this);
    }

    /** addParent: a condition that has already fired fires its new parent. */
    method AddParent(parent: Condition, ghost world: set<Condition>)
      requires this in world && parent in world && parent.level < level && Layered(world)
      modifies world
      ensures Snapshot(world) == Apply(old(Snapshot(world)), Link(this, parent)) && Layered(world)
    {
      parentSet := parentSet + {parent};
      assert Parents(world) == old(Parents(world))[this := old(parentSet) + {parent}];
      assert Fired(world) == old(Fired(world));
      if fired {
        parent.Broadcast(world);
      }
    }

    /** removeParent. */
    method RemoveParent(parent: Condition, ghost world: set<Condition>)
      requires this in world && Layered(world)
      modifies this
      ensures Snapshot(world) == Apply(old(Snapshot(world)), Unlink(this, parent)) && Layered(world)
    {
      parentSet := parentSet - {parent};
      assert Parents(world) == old(Parents(world))[this := old(parentSet) - {parent}];
      assert Fired(world) == old(Fired(world));
    }

    /** fired: tests and clears the flag. */
    method TestFired(ghost world: set<Condition>) returns (r: bool)
      requires this in world && Layered(world)
      modifies this
      ensures r == old(fired) && parentSet == old(parentSet)
      ensures Snapshot(world) == Apply(old(Snapshot(world)), Consume(this)) && Layered(world)
    {
      r := fired;
      fired := false;
      assert Parents(world) == old(Parents(world));
      assert Fired(world) == old(Fired(world)) - {this};
    }

    /** timedWait: it does not wait at all when the condition has fired; `signalled` says whether a
        wait that does happen ends before its timeout. */
    method TimedWait(signalled: bool, ghost world: set<Condition>) returns (r: bool)
      requires this in world && Layered(world)
      modifies this
      ensures r <==> old(fired) || signalled
      ensures Snapshot(world) == (if r then Apply(old(Snapshot(world)), Consume(this)) else old(Snapshot(world)))
      ensures Layered(world)
    {
      r := fired || signalled;
      if r {
        fired := false;
      }
      assert Parents(world) == old(Parents(world));
      assert Fired(world) == if r then old(Fired(world)) - {this} else old(Fired(world));
    }
  }

  // ---------------------------------------------------------------- the network as a value

  /** What may happen to a network of conditions. */
  datatype Act = Fire(c: Condition) | Link(c: Condition, p: Condition) | Unlink(c: Condition, p: Condition) | Consume(c: Condition)

  ghost function Fired(world: set<Condition>): set<Condition>
    reads world
  {
    set c | c in world && c.fired
  }

  ghost function Snapshot(world: set<Condition>): Net
    reads world
  {
    Net(Parents(world), Fired(world))
  }

  /** A condition and everything above it. */
  ghost function Above(g: map<Condition, set<Condition>>, c: Condition): set<Condition> {
    set d | d in g && Reaches(g, c, d)
  }

  ghost function Apply(n: Net, a: Act): Net {
    match a
    case Fire(c) => n.(fired := n.fired + Above(n.parents, c))
    case Link(c, p) =>
      if c !in n.parents then n
      else
        var g := n.parents[c := n.parents[c] + {p}];
        Net(g, if c in n.fired then n.fired + Above(g, p) else n.fired)
    case Unlink(c, p) =>
      if c !in n.parents then n else n.(parents := n.parents[c := n.parents[c] - {p}])
    case Consume(c) => n.(fired := n.fired - {c})
  }

  /** Some condition of the set reaches `d`. */
  ghost predicate FromAny(g: map<Condition, set<Condition>>, from: set<Condition>, d: Condition) {
    exists p <- from :: Reaches(g, p, d)
  }

  ghost function AboveAny(g: map<Condition, set<Condition>>, from: set<Condition>): set<Condition> {
    set d | d in g && FromAny(g, from, d)
  }

  lemma AboveNone(g: map<Condition, set<Condition>>)
    ensures AboveAny(g, {}) == {}
  {
  }

  lemma AboveGrows(g: map<Condition, set<Condition>>, all: set<Condition>, todo: set<Condition>, p: Condition)
    requires p in todo && todo <= all
    ensures AboveAny(g, all - (todo - {p})) == AboveAny(g, all - todo) + Above(g, p)
  {
    var from := all - todo;
    assert all - (todo - {p}) == from + {p};
    forall d <- g ensures d in AboveAny(g, from + {p}) <==> d in AboveAny(g, from) + Above(g, p) {
      FromAnyGrows(g, from, p, d);
    }
  }

  lemma AboveIs(g: map<Condition, set<Condition>>, c: Condition)
    requires c in g && forall p <- g[c] :: p.level < c.level
    ensures Above(g, c) == {c} + AboveAny(g, g[c])
  {
  }

  lemma FromAnyGrows(g: map<Condition, set<Condition>>, from: set<Condition>, p: Condition, d: Condition)
    ensures FromAny(g, from + {p}, d) <==> FromAny(g, from, d) || Reaches(g, p, d)
  {
    if FromAny(g, from, d) {
      var q :| q in from && Reaches(g, q, d);
      assert q in from + {p};
    }
    if Reaches(g, p, d) {
      assert p in from + {p};
    }
  }

  /** Parents are inside the world and on a lower layer, so the graph has no cycle. */
  ghost predicate Layered(world: set<Condition>)
    reads world
  {
    forall c <- world, p <- c.parentSet :: p in world && p.level < c.level
  }

  ghost function Parents(world: set<Condition>): map<Condition, set<Condition>>
    reads world
  {
    map c | c in world :: c.parentSet
  }

  /** `d` is `c` or above it. */
  ghost predicate Reaches(g: map<Condition, set<Condition>>, c: Condition, d: Condition)
    decreases c.level
  {
    c == d || (c in g && exists p <- g[c] :: p.level < c.level && Reaches(g, p, d))
  }

  lemma {:induction false} ReachesTrans(g: map<Condition, set<Condition>>, c: Condition, d: Condition, e: Condition)
    requires Reaches(g, c, d) && Reaches(g, d, e)
    ensures Reaches(g, c, e)
    decreases c.level
  {
    if c != d {
      var p :| p in g[c] && p.level < c.level && Reaches(g, p, d);
      ReachesTrans(g, p, d, e);
    }
  }

  // ---------------------------------------------------------------- no lost wake-up

  /** Each watched condition has one of the select call's local conditions as a parent, each local
      one has the global condition as a parent, and a watched condition that has fired has woken
      the global one. */
  ghost predicate Alert(n: Net, watched: set<Condition>, local: set<Condition>, global: Condition) {
    && Connected(n.parents, watched, local, global)
    && (forall c <- watched :: c in n.fired ==> global in n.fired)
  }

  ghost predicate Connected(g: map<Condition, set<Condition>>, watched: set<Condition>, local: set<Condition>,
                            global: Condition) {
    && global in g
    && (forall p <- local :: p in g && p.level > global.level && global in g[p])
    && (forall c <- watched :: c in g && exists p <- local :: p.level < c.level && p in g[c])
  }

  /** What other threads may do meanwhile: anything but take away this call's own links or consume
      its global condition. */
  ghost predicate Foreign(a: Act, local: set<Condition>, global: Condition) {
    match a
    case Fire(_) => true
    case Link(c, p) => p.level < c.level
    case Unlink(_, p) => p !in local && p != global
    case Consume(c) => c != global
  }

  lemma WatchedReachGlobal(g: map<Condition, set<Condition>>, watched: set<Condition>, local: set<Condition>,
                           global: Condition, c: Condition)
    requires Connected(g, watched, local, global) && c in watched
    ensures Reaches(g, c, global)
  {
    var p :| p in local && p.level < c.level && p in g[c];
    assert Reaches(g, global, global);
    assert Reaches(g, p, global);
  }

  lemma StaysConnected(n: Net, a: Act, watched: set<Condition>, local: set<Condition>, global: Condition)
    requires Connected(n.parents, watched, local, global) && Foreign(a, local, global)
    ensures Connected(Apply(n, a).parents, watched, local, global)
  {
    LinksStay(n, a, local, global);
    MoreLinks(n.parents, Apply(n, a).parents, watched, local, global);
  }

  /** The links to the call's own conditions stay. */
  ghost predicate OwnLinksStay(g: map<Condition, set<Condition>>, h: map<Condition, set<Condition>>, own: set<Condition>) {
    g.Keys == h.Keys && forall c, p :: c in g && p in g[c] && p in own ==> p in h[c]
  }

  lemma LinksStay(n: Net, a: Act, local: set<Condition>, global: Condition)
    requires Foreign(a, local, global)
    ensures OwnLinksStay(n.parents, Apply(n, a).parents, local + {global})
  {
  }

  lemma MoreLinks(g: map<Condition, set<Condition>>, h: map<Condition, set<Condition>>, watched: set<Condition>,
                  local: set<Condition>, global: Condition)
    requires Connected(g, watched, local, global) && OwnLinksStay(g, h, local + {global})
    ensures Connected(h, watched, local, global)
  {
    forall c <- watched ensures c in h && exists p <- local :: p.level < c.level && p in h[c] {
      var p :| p in local && p.level < c.level && p in g[c];
      assert p in h[c];
    }
  }

  /** Firing anything from which a watched condition can be reached fires the global condition. */
  lemma FiringWakes(g: map<Condition, set<Condition>>, from: Condition, watched: set<Condition>,
                    local: set<Condition>, global: Condition, c: Condition)
    requires Connected(g, watched, local, global) && c in watched && c in Above(g, from)
    ensures global in Above(g, from)
  {
    WatchedReachGlobal(g, watched, local, global, c);
    ReachesTrans(g, from, c, global);
  }

  /** One step of another thread keeps the call alert. */
  lemma StaysAlert(n: Net, a: Act, watched: set<Condition>, local: set<Condition>, global: Condition)
    requires Alert(n, watched, local, global) && Foreign(a, local, global)
    ensures Alert(Apply(n, a), watched, local, global)
  {
    var m := Apply(n, a);
    StaysConnected(n, a, watched, local, global);
    forall c <- watched | c in m.fired ensures global in m.fired {
      if c in n.fired {
        OthersKeep(n, a, local, global);
      } else {
        var from := FiredBy(n, a, c);
        FiringWakes(m.parents, from, watched, local, global, c);
      }
    }
  }

  lemma OthersKeep(n: Net, a: Act, local: set<Condition>, global: Condition)
    requires Foreign(a, local, global) && global in n.fired
    ensures global in Apply(n, a).fired
  {
  }

  /** What fires a condition fires everything above it. */
  lemma FiredBy(n: Net, a: Act, c: Condition) returns (from: Condition)
    requires c !in n.fired && c in Apply(n, a).fired
    ensures var m := Apply(n, a); c in Above(m.parents, from) && Above(m.parents, from) <= m.fired
  {
    from := if a.Fire? then a.c else a.p;
  }

  ghost function ApplyAll(n: Net, acts: seq<Act>): Net
    decreases |acts|
  {
    if acts == [] then n else ApplyAll(Apply(n, acts[0]), acts[1..])
  }

  /**
    * No lost wake-up: from registration until the waiter consumes the global condition, whatever
    * other threads fire, link, unlink and consume, in any order and number, a watched condition that
    * has fired has fired the global condition.
    */
  lemma {:induction false} NoLostWakeUp(n: Net, acts: seq<Act>, watched: set<Condition>, local: set<Condition>,
                                        global: Condition, c: Condition)
    requires Alert(n, watched, local, global) && c in watched
    requires forall k :: 0 <= k < |acts| ==> Foreign(acts[k], local, global)
    ensures Alert(ApplyAll(n, acts), watched, local, global)
    ensures c in ApplyAll(n, acts).fired ==> global in ApplyAll(n, acts).fired
    decreases |acts|
  {
    if acts != [] {
      StaysAlert(n, acts[0], watched, local, global);
      NoLostWakeUp(Apply(n, acts[0]), acts[1..], watched, local, global, c);
    }
  }

  /** Linking a condition to a local one that leads to the global one starts watching it, whether it
      fires before or after. */
  lemma LinkWatches(n: Net, c: Condition, p: Condition, watched: set<Condition>, local: set<Condition>, global: Condition)
    requires Alert(n, watched, local, global) && c in n.parents && p in local && p.level < c.level
    ensures Alert(Apply(n, Link(c, p)), watched + {c}, local, global)
  {
    StaysAlert(n, Link(c, p), watched, local, global);
    var m := Apply(n, Link(c, p));
    assert p in m.parents[c];
    assert Reaches(m.parents, p, p);
    if c in n.fired {
      assert global in m.parents[p];
      assert Reaches(m.parents, global, global);
      assert Reaches(m.parents, p, global);
    }
  }
}
