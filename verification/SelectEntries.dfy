/** The entries that ext_select makes from the descriptor table: each watches a condition of its own. */
module SelectEntries {
  import opened Basics
  import opened Conditions
  import opened Descriptors
  import opened SelectWait

  /** What a slot stands for. */
  datatype Owner = OfSocket(s: SocketId) | OfAssociation(a: AssocId)

  function OwnerOf(d: Descriptor): Owner
    requires d.Sctp?
  {
    if d.assoc != 0 then OfAssociation(d.assoc) else OfSocket(d.socket)
  }

  /** The read, write and except conditions of every socket and association, and their cached state. */
  datatype Objects = Objects(conditions: map<(Owner, Kind), Condition>, ready: map<(Owner, Kind), bool>)

  /** Each object has three conditions of its own. */
  ghost predicate OwnConditions(o: Objects, t: seq<Descriptor>) {
    && (forall i, kind :: 0 <= i < |t| && t[i].Sctp? ==>
          (OwnerOf(t[i]), kind) in o.conditions && (OwnerOf(t[i]), kind) in o.ready)
    && (forall x, y :: x in o.conditions && y in o.conditions && x != y ==> o.conditions[x] != o.conditions[y])
  }

  /** The sets that the application passes. */
  datatype Sets = Sets(read: set<nat>, write: set<nat>, except: set<nat>) {
    function Of(kind: Kind): set<nat> {
      match kind
      case Read => read
      case Write => write
      case Except => except
    }
  }

  /** The write side of a UDP-like socket. */
  predicate AlwaysWritable(d: Descriptor, kind: Kind) {
    d.Sctp? && kind == Write && d.assoc == 0 && !d.connectionOriented
  }

  /** collectFDs and collectSCTP_FDs on one SCTP slot and kind. */
  function Entry(o: Objects, t: seq<Descriptor>, fd: nat, kind: Kind, sets: Sets): seq<Watch>
    requires fd < |t| && t[fd].Sctp? && (OwnerOf(t[fd]), kind) in o.conditions && (OwnerOf(t[fd]), kind) in o.ready
  {
    if fd !in sets.Of(kind) then []
    else
      var key := (OwnerOf(t[fd]), kind);
      [Watch(fd, kind, o.conditions[key], o.ready[key], AlwaysWritable(t[fd], kind))]
  }

  function EntriesOf(o: Objects, t: seq<Descriptor>, fd: nat, sets: Sets): seq<Watch>
    requires fd < |t| && (t[fd].Sctp? ==> forall kind :: (OwnerOf(t[fd]), kind) in o.conditions && (OwnerOf(t[fd]), kind) in o.ready)
  {
    if !t[fd].Sctp? then []
    else Entry(o, t, fd, Read, sets) + Entry(o, t, fd, Write, sets) + Entry(o, t, fd, Except, sets)
  }

  /** The entries of the first n slots. */
  function Entries(o: Objects, t: seq<Descriptor>, n: nat, sets: Sets): seq<Watch>
    requires n <= |t| && forall i, kind :: 0 <= i < |t| && t[i].Sctp? ==>
               (OwnerOf(t[i]), kind) in o.conditions && (OwnerOf(t[i]), kind) in o.ready
  {
    if n == 0 then [] else Entries(o, t, n - 1, sets) + EntriesOf(o, t, n - 1, sets)
  }

  /** An entry watches the condition of its slot's owner, for a kind that was asked for. */
  ghost predicate FromSlot(w: Watch, o: Objects, t: seq<Descriptor>, n: nat, sets: Sets) {
    && w.fd < n <= |t| && t[w.fd].Sctp? && w.fd in sets.Of(w.kind)
    && var key := (OwnerOf(t[w.fd]), w.kind);
       && key in o.conditions && w.c == o.conditions[key]
       && key in o.ready && w.ready == o.ready[key]
       && w.always == AlwaysWritable(t[w.fd], w.kind)
  }

  /** What one more slot keeps holds of all entries. */
  lemma {:induction false} EntriesInduction(o: Objects, t: seq<Descriptor>, n: nat, sets: Sets, P: (nat, seq<Watch>) -> bool)
    requires n <= |t| && OwnConditions(o, t) && P(0, [])
    requires forall k: nat, w {:trigger w + EntriesOf(o, t, k, sets)} ::
               k < |t| && P(k, w) ==> P(k + 1, w + EntriesOf(o, t, k, sets))
    ensures P(n, Entries(o, t, n, sets))
  {
    if n > 0 {
      EntriesInduction(o, t, n - 1, sets, P);
    }
  }

  ghost predicate AllFromSlots(watch: seq<Watch>, o: Objects, t: seq<Descriptor>, n: nat, sets: Sets) {
    forall k :: 0 <= k < |watch| ==> FromSlot(watch[k], o, t, n, sets)
  }

  lemma OwnFromSlot(o: Objects, t: seq<Descriptor>, fd: nat, sets: Sets)
    requires fd < |t| && OwnConditions(o, t)
    ensures AllFromSlots(EntriesOf(o, t, fd, sets), o, t, fd + 1, sets)
  {
  }

  lemma JoinedFromSlots(front: seq<Watch>, own: seq<Watch>, o: Objects, t: seq<Descriptor>, n: nat, sets: Sets)
    requires AllFromSlots(front, o, t, n, sets) && AllFromSlots(own, o, t, n + 1, sets) && n < |t|
    ensures AllFromSlots(front + own, o, t, n + 1, sets)
  {
  }

  lemma EntriesFromSlots(o: Objects, t: seq<Descriptor>, n: nat, sets: Sets)
    requires n <= |t| && OwnConditions(o, t)
    ensures AllFromSlots(Entries(o, t, n, sets), o, t, n, sets)
  {
    var P := (k: nat, w: seq<Watch>) => AllFromSlots(w, o, t, k, sets);
    forall k: nat, w {:trigger w + EntriesOf(o, t, k, sets)} | k < |t| && P(k, w)
      ensures P(k + 1, w + EntriesOf(o, t, k, sets))
    {
      OwnFromSlot(o, t, k, sets);
      JoinedFromSlots(w, EntriesOf(o, t, k, sets), o, t, k, sets);
    }
    EntriesInduction(o, t, n, sets, P);
    assert P(n, Entries(o, t, n, sets));
  }

  ghost predicate HasEntry(watch: seq<Watch>, fd: nat, kind: Kind) {
    exists k :: 0 <= k < |watch| && watch[k].fd == fd && watch[k].kind == kind
  }

  lemma OwnHasEntry(o: Objects, t: seq<Descriptor>, fd: nat, sets: Sets, kind: Kind)
    requires fd < |t| && OwnConditions(o, t) && t[fd].Sctp? && fd in sets.Of(kind)
    ensures HasEntry(EntriesOf(o, t, fd, sets), fd, kind)
  {
    var own := EntriesOf(o, t, fd, sets);
    var j := if kind == Read then 0
             else |Entry(o, t, fd, Read, sets)| + if kind == Write then 0 else |Entry(o, t, fd, Write, sets)|;
    assert own[j].fd == fd && own[j].kind == kind;
  }

  lemma JoinedHasEntry(front: seq<Watch>, own: seq<Watch>, fd: nat, kind: Kind)
    requires HasEntry(front, fd, kind) || HasEntry(own, fd, kind)
    ensures HasEntry(front + own, fd, kind)
  {
    if HasEntry(front, fd, kind) {
      var k :| 0 <= k < |front| && front[k].fd == fd && front[k].kind == kind;
      assert (front + own)[k] == front[k];
    } else {
      var k :| 0 <= k < |own| && own[k].fd == fd && own[k].kind == kind;
      assert (front + own)[|front| + k] == own[k];
    }
  }

  /** Every slot and kind asked for has an entry. */
  lemma EntriesComplete(o: Objects, t: seq<Descriptor>, n: nat, sets: Sets, fd: nat, kind: Kind)
    requires fd < n <= |t| && OwnConditions(o, t) && t[fd].Sctp? && fd in sets.Of(kind)
    ensures HasEntry(Entries(o, t, n, sets), fd, kind)
  {
    var P := (k: nat, w: seq<Watch>) => fd < k ==> HasEntry(w, fd, kind);
    forall k: nat, w {:trigger w + EntriesOf(o, t, k, sets)} | k < |t| && P(k, w)
      ensures P(k + 1, w + EntriesOf(o, t, k, sets))
    {
      if fd == k {
        OwnHasEntry(o, t, fd, sets, kind);
      }
      if fd <= k {
        JoinedHasEntry(w, EntriesOf(o, t, k, sets), fd, kind);
      }
    }
    EntriesInduction(o, t, n, sets, P);
    assert P(n, Entries(o, t, n, sets));
  }

  lemma OwnersDiffer(t: seq<Descriptor>, live: set<SocketId>, owner: map<AssocId, SocketId>, i: nat, j: nat)
    requires Ownership(t, live, owner) && i < |t| && j < |t| && i != j && t[i].Sctp? && t[j].Sctp?
    ensures OwnerOf(t[i]) != OwnerOf(t[j])
  {
    assert if i < j then Different(t[i], t[j]) else Different(t[j], t[i]);
  }

  ghost predicate OnceEach(watch: seq<Watch>) {
    forall i, j :: 0 <= i < j < |watch| ==> watch[i].fd != watch[j].fd || watch[i].kind != watch[j].kind
  }

  ghost predicate OnceBefore(watch: seq<Watch>, n: nat) {
    OnceEach(watch) && forall k :: 0 <= k < |watch| ==> watch[k].fd < n
  }

  ghost predicate AllAt(watch: seq<Watch>, fd: nat) {
    forall k :: 0 <= k < |watch| ==> watch[k].fd == fd
  }

  lemma OwnOnceEach(o: Objects, t: seq<Descriptor>, fd: nat, sets: Sets)
    requires fd < |t| && OwnConditions(o, t)
    ensures OnceEach(EntriesOf(o, t, fd, sets)) && AllAt(EntriesOf(o, t, fd, sets), fd)
  {
    if t[fd].Sctp? {
      var r, w, e := Entry(o, t, fd, Read, sets), Entry(o, t, fd, Write, sets), Entry(o, t, fd, Except, sets);
      assert |r| <= 1 && |w| <= 1 && |e| <= 1;
    }
  }

  lemma EntriesOnceEach(o: Objects, t: seq<Descriptor>, n: nat, sets: Sets)
    requires n <= |t| && OwnConditions(o, t)
    ensures OnceEach(Entries(o, t, n, sets))
  {
    var P := (k: nat, w: seq<Watch>) => OnceBefore(w, k);
    forall k: nat, w {:trigger w + EntriesOf(o, t, k, sets)} | k < |t| && P(k, w)
      ensures P(k + 1, w + EntriesOf(o, t, k, sets))
    {
      OwnOnceEach(o, t, k, sets);
      JoinedOnce(w, EntriesOf(o, t, k, sets), k);
    }
    EntriesInduction(o, t, n, sets, P);
    assert P(n, Entries(o, t, n, sets));
  }

  lemma JoinedOnce(front: seq<Watch>, own: seq<Watch>, fd: nat)
    requires OnceBefore(front, fd) && OnceEach(own) && AllAt(own, fd)
    ensures OnceBefore(front + own, fd + 1)
  {
  }

  /** In every state of the descriptor table, the entries of one call watch different conditions. */
  lemma EntriesDistinct(o: Objects, t: seq<Descriptor>, live: set<SocketId>, owner: map<AssocId, SocketId>, n: nat, sets: Sets)
    requires n <= |t| && Ownership(t, live, owner) && OwnConditions(o, t)
    ensures Distinct(Entries(o, t, n, sets))
  {
    var watch := Entries(o, t, n, sets);
    EntriesFromSlots(o, t, n, sets);
    EntriesOnceEach(o, t, n, sets);
    forall i, j | 0 <= i < j < |watch| ensures watch[i].c != watch[j].c {
      assert FromSlot(watch[i], o, t, n, sets) && FromSlot(watch[j], o, t, n, sets);
      if watch[i].fd != watch[j].fd {
        OwnersDiffer(t, live, owner, watch[i].fd, watch[j].fd);
      }
    }
  }

  /** So ext_select reports an SCTP descriptor exactly if it was asked for and its condition has fired. */
  lemma DescriptorReported(o: Objects, t: seq<Descriptor>, live: set<SocketId>, owner: map<AssocId, SocketId>, n: nat,
                           sets: Sets, fired: set<Condition>, kind: Kind, fd: nat)
    requires n <= |t| && Ownership(t, live, owner) && OwnConditions(o, t)
    ensures fd in Side(Reports(fired, Entries(o, t, n, sets)), kind)
            <==> fd < n && t[fd].Sctp? && fd in sets.Of(kind) && o.conditions[(OwnerOf(t[fd]), kind)] in fired
  {
    var watch := Entries(o, t, n, sets);
    EntriesDistinct(o, t, live, owner, n, sets);
    EntriesFromSlots(o, t, n, sets);
    ReportsFired(fired, watch, kind, fd);
    if fd < n && t[fd].Sctp? && fd in sets.Of(kind) {
      EntriesComplete(o, t, n, sets, fd, kind);
      var k :| 0 <= k < |watch| && watch[k].fd == fd && watch[k].kind == kind;
      assert FromSlot(watch[k], o, t, n, sets);
    }
  }

  /** Of entries that differ in descriptor or kind, as many are counted as bits are set. */
  lemma {:induction false} ChangesAreBits(fired: set<Condition>, watch: seq<Watch>)
    requires Distinct(watch) && OnceEach(watch)
    ensures var r := Reports(fired, watch); r.changes == |r.read| + |r.write| + |r.except|
  {
    if watch != [] {
      var front, w := watch[..|watch| - 1], watch[|watch| - 1];
      ChangesAreBits(fired, front);
      NotReportedBefore(fired, watch);
      OneMore(Side(Reports(fired, front), w.kind), w.fd);
    }
  }

  lemma NotReportedBefore(fired: set<Condition>, watch: seq<Watch>)
    requires watch != [] && Distinct(watch) && OnceEach(watch)
    ensures var w := watch[|watch| - 1]; w.fd !in Side(Reports(fired, watch[..|watch| - 1]), w.kind)
  {
    var front, w := watch[..|watch| - 1], watch[|watch| - 1];
    ReportsFired(fired, front, w.kind, w.fd);
    assert forall i :: 0 <= i < |front| ==> front[i] == watch[i];
  }

  /** So ext_select returns the number of bits that it sets. */
  lemma EntriesCounted(o: Objects, t: seq<Descriptor>, live: set<SocketId>, owner: map<AssocId, SocketId>, count: nat,
                       sets: Sets, fired: set<Condition>)
    requires count <= |t| && Ownership(t, live, owner) && OwnConditions(o, t)
    ensures var r := Reports(fired, Entries(o, t, count, sets)); r.changes == |r.read| + |r.write| + |r.except|
  {
    EntriesDistinct(o, t, live, owner, count, sets);
    EntriesOnceEach(o, t, count, sets);
    ChangesAreBits(fired, Entries(o, t, count, sets));
  }

  /** Among the first `count` slots, the application asks for one of an SCTP socket or association. */
  predicate Asked(t: seq<Descriptor>, count: nat, sets: Sets, kind: Kind, fd: nat) {
    fd < count <= |t| && t[fd].Sctp? && fd in sets.Of(kind)
  }

  /** The descriptor is ready at the start of the call, or it is the write side of a UDP-like socket. */
  predicate ReadyNow(o: Objects, t: seq<Descriptor>, kind: Kind, fd: nat)
    requires fd < |t| && t[fd].Sctp? && (OwnerOf(t[fd]), kind) in o.ready
  {
    o.ready[(OwnerOf(t[fd]), kind)] || (kind == Write && t[fd].assoc == 0 && !t[fd].connectionOriented)
  }

  /** There is a cause to report the descriptor: it was ready, or somebody fired its condition meanwhile. */
  ghost predicate Caused(o: Objects, t: seq<Descriptor>, count: nat, sets: Sets, n: Net, l: Locals, before: seq<Act>,
                         signalled: bool, after: seq<Act>, kind: Kind, fd: nat)
    requires OwnConditions(o, t) && Asked(t, count, sets, kind, fd)
  {
    var key := (OwnerOf(t[fd]), kind);
    || ReadyNow(o, t, kind, fd)
    || FiredMeanwhile(n, Entries(o, t, count, sets), l, before, signalled, after, o.conditions[key])
  }

  /** A call of ext_select on a table that owns its sockets may begin. */
  ghost predicate MayCall(o: Objects, t: seq<Descriptor>, live: set<SocketId>, owner: map<AssocId, SocketId>, n: Net, l: Locals,
                          before: seq<Act>, after: seq<Act>) {
    && Ownership(t, live, owner) && OwnConditions(o, t)
    && (forall key <- o.conditions :: o.conditions[key] in n.parents && o.conditions[key].level == 2)
    && l.Leveled() && Alert(n, {}, l.Sides(), l.global) && l.global !in n.fired
    && AllOutside(before, l) && AllOutside(after, l)
  }

  lemma EntriesLinked(o: Objects, t: seq<Descriptor>, count: nat, sets: Sets, n: Net)
    requires count <= |t| && OwnConditions(o, t)
    requires forall key <- o.conditions :: o.conditions[key] in n.parents && o.conditions[key].level == 2
    ensures var watch := Entries(o, t, count, sets);
            forall k :: 0 <= k < |watch| ==> watch[k].c in n.parents && watch[k].c.level == 2
  {
    var watch := Entries(o, t, count, sets);
    EntriesFromSlots(o, t, count, sets);
    forall k | 0 <= k < |watch| ensures watch[k].c in n.parents && watch[k].c.level == 2 {
      assert FromSlot(watch[k], o, t, count, sets);
    }
  }

  /** The entry of a descriptor asked for. */
  lemma EntryOf(o: Objects, t: seq<Descriptor>, count: nat, sets: Sets, kind: Kind, fd: nat) returns (i: nat)
    requires OwnConditions(o, t) && Asked(t, count, sets, kind, fd)
    ensures var watch, key := Entries(o, t, count, sets), (OwnerOf(t[fd]), kind);
            && i < |watch| && watch[i].c == o.conditions[key]
            && (ReadyAtOnce(watch[i]) <==> ReadyNow(o, t, kind, fd))
  {
    var watch := Entries(o, t, count, sets);
    EntriesFromSlots(o, t, count, sets);
    EntriesComplete(o, t, count, sets, fd, kind);
    i :| 0 <= i < |watch| && watch[i].fd == fd && watch[i].kind == kind;
    assert FromSlot(watch[i], o, t, count, sets);
  }

  /**
    * ext_select as a whole, on the SCTP descriptors of any table that owns its sockets and with any acts
    * of other threads before and after the wait.  What it reports was asked for and had a cause: it was
    * ready at the start, or somebody fired it meanwhile.  What was asked for, had a cause, and was
    * consumed by nobody is reported.  With a descriptor ready at the start the call does not wait.
    */
  lemma SelectReports(o: Objects, t: seq<Descriptor>, live: set<SocketId>, owner: map<AssocId, SocketId>, count: nat,
                      sets: Sets, n: Net, l: Locals, before: seq<Act>, signalled: bool, after: seq<Act>, kind: Kind, fd: nat)
    requires count <= |t| && MayCall(o, t, live, owner, n, l, before, after)
    ensures var watch := Entries(o, t, count, sets);
            var reported := fd in Side(Reports(AtCollect(n, watch, l, before, signalled, after).fired, watch), kind);
            && (reported ==> Asked(t, count, sets, kind, fd) && Caused(o, t, count, sets, n, l, before, signalled, after, kind, fd))
            && (Asked(t, count, sets, kind, fd) && Caused(o, t, count, sets, n, l, before, signalled, after, kind, fd) ==>
                  Consume(o.conditions[(OwnerOf(t[fd]), kind)]) in before + after || reported)
            && (Asked(t, count, sets, kind, fd) && ReadyNow(o, t, kind, fd) ==> Woken(AtWait(n, watch, l, before), l, signalled))
    ensures var watch := Entries(o, t, count, sets);
            var r := Reports(AtCollect(n, watch, l, before, signalled, after).fired, watch);
            r.changes == |r.read| + |r.write| + |r.except|
  {
    var watch := Entries(o, t, count, sets);
    EntriesCounted(o, t, live, owner, count, sets, AtCollect(n, watch, l, before, signalled, after).fired);
    DescriptorReported(o, t, live, owner, count, sets, AtCollect(n, watch, l, before, signalled, after).fired, kind, fd);
    if Asked(t, count, sets, kind, fd) {
      EntriesLinked(o, t, count, sets, n);
      EntriesDistinct(o, t, live, owner, count, sets);
      var i := EntryOf(o, t, count, sets, kind, fd);
      FiredExactly(n, watch, l, before, signalled, after, i);
      WakesInTime(n, watch, l, before);
      assert ReadyNow(o, t, kind, fd) ==> watch[i].ready || watch[i].always;
    }
  }
}
