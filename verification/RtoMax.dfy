/** The maximum retransmission timeout of an association: sctplib is given the timeout for the
    connection setup in its place until the association is up or lost. */
module RtoMax {
  import opened Basics

  /** The instance parameters that associate() touches. */
  datatype Defaults = Defaults(maxInitRetransmits: nat, rtoMax: nat)

  function ForSetup(before: Defaults, maxAttempts: nat, maxInitTimeout: nat): Defaults {
    Defaults(if maxAttempts > 1 then maxAttempts - 1 else 1, maxInitTimeout)
  }

  /** Which of sctplib's calls succeed while an association is set up. */
  datatype Replies = Replies(gets: bool, sets: bool, restores: bool)

  datatype Call =
    | SetStatus(value: nat, ok: bool)
    | GetStatus(ok: bool)
    | Settled(gets: bool, sets: bool)

  /** No call to sctplib fails. */
  predicate Succeeds(c: Call) {
    match c
    case SetStatus(_, ok) => ok
    case GetStatus(ok) => ok
    case Settled(gets, sets) => gets && sets
  }

  ghost predicate AllSucceed(calls: seq<Call>, n: nat)
    requires n <= |calls|
  {
    forall i :: 0 <= i < n ==> Succeeds(calls[i])
  }

  /** The value last set in a run of calls, or what it was before. */
  function LastSet(calls: seq<Call>, before: nat): nat {
    if calls == [] then before
    else
      var last := calls[|calls| - 1];
      if last.SetStatus? then last.value else LastSet(calls[..|calls| - 1], before)
  }

  /** The instance, and one association set up from it. */
  class Timeouts {
    /** What sctplib holds. */
    var defaults: Defaults
    var held: nat
    var heldRetransmits: nat
    /** What the association object holds. */
    var rtoMaxIsInitTimeout: bool
    var rtoMax: nat
    var initTimeout: nat

    /** What getAssocStatus() reports when sctplib answers. */
    function Seen(): nat
      reads this
    {
      if rtoMaxIsInitTimeout then rtoMax else held
    }

    /** While the association is pending, sctplib holds the setup timeout. */
    ghost predicate Valid()
      reads this
    {
      rtoMaxIsInitTimeout ==> held == initTimeout
    }

    constructor (d: Defaults)
      ensures defaults == d && !rtoMaxIsInitTimeout && Valid()
    {
      defaults, held, heldRetransmits, rtoMaxIsInitTimeout, rtoMax, initTimeout := d, 0, 0, false, 0, 0;
    }

    /**
      * associate(): sctplib gives a new association the instance's parameters.  `unset` is what the
      * uninitialized record of the old parameters holds if they cannot be read.
      */
    method Associate(maxAttempts: nat, maxInitTimeout: nat, replies: Replies, unset: Defaults)
      modifies this
      ensures rtoMaxIsInitTimeout && initTimeout == maxInitTimeout
      ensures held == if replies.gets && replies.sets then maxInitTimeout else old(defaults.rtoMax)
      ensures heldRetransmits == if !(replies.gets && replies.sets) then old(defaults.maxInitRetransmits)
                                 else if maxAttempts <= 2 then 1 else maxAttempts - 1
      ensures Seen() == if replies.gets then old(defaults.rtoMax) else unset.rtoMax
      ensures defaults == old(defaults)
              <==> if replies.gets then !replies.sets || replies.restores || Defaults(heldRetransmits, held) == old(defaults)
                   else !replies.restores || unset == old(defaults)
    {
      var oldParameters := unset;
      if replies.gets {
        oldParameters := defaults;
        if replies.sets {
          defaults := ForSetup(oldParameters, maxAttempts, maxInitTimeout);
        }
      }
      held, heldRetransmits := defaults.rtoMax, defaults.maxInitRetransmits;
      if replies.restores {
        defaults := oldParameters;
      }
      rtoMaxIsInitTimeout, rtoMax, initTimeout := true, oldParameters.rtoMax, maxInitTimeout;
    }

    method GetAssocStatus(ok: bool) returns (value: nat)
      ensures ok ==> value == Seen()
    {
      value := if !ok then 0 else if rtoMaxIsInitTimeout then rtoMax else held;
    }

    /** A set that sctplib refuses is still remembered while the association is pending. */
    method SetAssocStatus(value: nat, ok: bool)
      requires Valid()
      modifies this`rtoMax, this`held
      ensures Valid()
      ensures Seen() == value <==> ok || rtoMaxIsInitTimeout || old(Seen()) == value
      ensures Seen() == old(Seen()) || Seen() == value
    {
      var newStatus := value;
      if rtoMaxIsInitTimeout {
        newStatus := initTimeout;
        rtoMax := value;
      }
      if ok {
        held := newStatus;
      }
    }

    /** Communication up or lost: the timeout last set takes the place of the setup timeout.  What is
        seen stays the same exactly if sctplib answers, or the two were equal anyway. */
    method Settle(gets: bool, sets: bool)
      requires Valid()
      modifies this`held, this`rtoMaxIsInitTimeout
      ensures Valid() && !rtoMaxIsInitTimeout
      ensures Seen() == old(Seen()) <==> (gets && sets) || !old(rtoMaxIsInitTimeout) || rtoMax == initTimeout
      ensures old(rtoMaxIsInitTimeout) && gets && sets ==> held == rtoMax
    {
      if rtoMaxIsInitTimeout {
        if gets && sets {
          held := rtoMax;
        }
        rtoMaxIsInitTimeout := false;
      }
    }

    /**
      * A whole run, with what each call reports (nothing, unless it is a successful get).  As long as
      * sctplib refuses nothing, every get reports the timeout last set before it, or the instance's
      * default, whether the association is pending, up or lost.
      */
    method Run(calls: seq<Call>) returns (reports: seq<Option<nat>>)
      requires Valid()
      modifies this`held, this`rtoMax, this`rtoMaxIsInitTimeout
      ensures Valid() && |reports| == |calls|
      ensures forall i :: 0 <= i < |calls| ==> (reports[i].Some? <==> calls[i] == GetStatus(true))
      ensures forall i :: 0 <= i < |calls| && AllSucceed(calls, i) && reports[i].Some? ==>
                reports[i].value == LastSet(calls[..i], old(Seen()))
      ensures AllSucceed(calls, |calls|) ==> Seen() == LastSet(calls, old(Seen()))
      ensures (exists i :: 0 <= i < |calls| && calls[i].Settled?) ==> !rtoMaxIsInitTimeout
    {
      reports := [];
      for n := 0 to |calls|
        invariant Valid() && |reports| == n
        invariant forall i :: 0 <= i < n ==> (reports[i].Some? <==> calls[i] == GetStatus(true))
        invariant forall i :: 0 <= i < n && AllSucceed(calls, i) && reports[i].Some? ==>
                    reports[i].value == LastSet(calls[..i], old(Seen()))
        invariant AllSucceed(calls, n) ==> Seen() == LastSet(calls[..n], old(Seen()))
        invariant (exists i :: 0 <= i < n && calls[i].Settled?) ==> !rtoMaxIsInitTimeout
      {
        assert calls[..n + 1][..n] == calls[..n];
        var report := None;
        match calls[n] {
          case SetStatus(value, ok) => SetAssocStatus(value, ok);
          case GetStatus(ok) =>
            var value := GetAssocStatus(ok);
            report := if ok then Some(value) else None;
          case Settled(gets, sets) => Settle(gets, sets);
        }
        reports := reports + [report];
      }
      assert calls[..|calls|] == calls;
    }
  }
}
