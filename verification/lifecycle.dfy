/** The order lifecycle of the vendor dashboard: the closed set of status
    strings the Orders tab recognises, the transitions it offers from each,
    and the forward-only ordering those transitions respect. */
module Lifecycle {

  /** An order's status. The five lifecycle values are the strings the Orders
      tab compares against; `Other` carries any string it does not recognise,
      which is shown as text and offers no action. */
  datatype Status =
    | Pending
    | Preparing
    | ReadyForPickup
    | OutForDelivery
    | Delivered
    | Other(raw: string)

  /** A status value that `Parse` can produce: `Other` never wraps one of the
      five recognised strings. */
  predicate WellFormed(st: Status) {
    st.Other? ==> !IsKnownName(st.raw)
  }

  predicate IsKnownName(s: string) {
    s == "pending" || s == "preparing" || s == "ready_for_pickup"
    || s == "out_for_delivery" || s == "delivered"
  }

  /** The wire string of a status: what the backend sends in an order's
      `status` field and what a status update puts in its payload. */
  function Name(st: Status): (s: string)
    ensures WellFormed(st) ==> (IsKnownName(s) <==> !st.Other?)
  {
    match st
    case Pending => "pending"
    case Preparing => "preparing"
    case ReadyForPickup => "ready_for_pickup"
    case OutForDelivery => "out_for_delivery"
    case Delivered => "delivered"
    case Other(raw) => raw
  }

  /** Reads an order's `status` string, comparing it with the recognised
      names exactly as the Orders tab does (case-sensitive, no trimming). */
  function Parse(s: string): (st: Status)
    ensures WellFormed(st)
    ensures Name(st) == s
    ensures st.Other? <==> !IsKnownName(s)
  {
    if s == "pending" then Pending
    else if s == "preparing" then Preparing
    else if s == "ready_for_pickup" then ReadyForPickup
    else if s == "out_for_delivery" then OutForDelivery
    else if s == "delivered" then Delivered
    else Other(s)
  }

  /** Reading back the name of a well-formed status gives the status: the
      payload of a status update names exactly the target chosen. */
  lemma NameRoundTrip(st: Status)
    requires WellFormed(st)
    ensures Parse(Name(st)) == st
  {
  }

  /** The transition table as a plain relation: the reference the status
      branches of the Orders tab are checked against. */
  const Table: set<(Status, Status)> :=
    { (Pending, Preparing),
      (Preparing, ReadyForPickup),
      (ReadyForPickup, OutForDelivery),
      (ReadyForPickup, Delivered) }

  /** The targets the Orders tab offers a button for, branch by branch:
      `pending` offers `preparing`, `preparing` offers `ready_for_pickup`,
      `ready_for_pickup` offers both `out_for_delivery` and `delivered`,
      and every other status is display-only. */
  function OfferedTargets(st: Status): (targets: set<Status>)
    ensures forall t :: t in targets <==> (st, t) in Table
    ensures targets == {} <==> !(st.Pending? || st.Preparing? || st.ReadyForPickup?)
  {
    if st == Pending then {Preparing}
    else if st == Preparing then {ReadyForPickup}
    else if st == ReadyForPickup then {OutForDelivery, Delivered}
    else {}
  }

  /** The successor set of each status: one target from `pending` and from
      `preparing`, both final statuses together from `ready_for_pickup`, and
      none from the final statuses or from any unrecognised string. */
  lemma SuccessorSets(raw: string)
    ensures OfferedTargets(Parse("pending")) == {Preparing}
    ensures OfferedTargets(Parse("preparing")) == {ReadyForPickup}
    ensures OfferedTargets(Parse("ready_for_pickup")) == {OutForDelivery, Delivered}
    ensures OfferedTargets(Parse("out_for_delivery")) == {}
    ensures OfferedTargets(Parse("delivered")) == {}
    ensures !IsKnownName(raw) ==> OfferedTargets(Parse(raw)) == {}
  {
  }

  /** True of the five statuses of the lifecycle; false of `Other`. */
  predicate InLifecycle(st: Status) {
    !st.Other?
  }

  /** Position in the lifecycle order
      pending < preparing < ready_for_pickup < out_for_delivery < delivered. */
  function Rank(st: Status): (r: nat)
    requires InLifecycle(st)
    ensures r <= 4
  {
    match st
    case Pending => 0
    case Preparing => 1
    case ReadyForPickup => 2
    case OutForDelivery => 3
    case Delivered => 4
  }

  /** Every offered target lies strictly later in the lifecycle than the
      status it is offered from, and only a status with a successor of its
      own (rank at most 2) offers anything. */
  lemma OfferedIsForward(st: Status, t: Status)
    requires t in OfferedTargets(st)
    ensures InLifecycle(st) && InLifecycle(t)
    ensures Rank(st) < Rank(t)
    ensures Rank(st) <= 2
  {
  }

  /** A sequence of statuses in which each one is offered from the one
      before it: the statuses one order passes through when the vendor keeps
      pressing buttons that succeed. */
  predicate IsChain(cs: seq<Status>) {
    forall k :: 0 <= k < |cs| - 1 ==> cs[k + 1] in OfferedTargets(cs[k])
  }

  /** Along a chain of two or more statuses every element is in the
      lifecycle and the rank grows by at least one per step. */
  lemma {:induction false} ChainRankGrows(cs: seq<Status>)
    requires IsChain(cs) && |cs| >= 2
    ensures forall k :: 0 <= k < |cs| ==> InLifecycle(cs[k])
    ensures forall k :: 0 <= k < |cs| ==> Rank(cs[0]) + k <= Rank(cs[k])
  {
    if |cs| == 2 {
      OfferedIsForward(cs[0], cs[1]);
    } else {
      var init := cs[..|cs| - 1];
      assert IsChain(init) by {
        forall k | 0 <= k < |init| - 1
          ensures init[k + 1] in OfferedTargets(init[k])
        {
          assert init[k] == cs[k] && init[k + 1] == cs[k + 1];
        }
      }
      ChainRankGrows(init);
      var n := |cs| - 1;
      assert cs[n - 1] == init[n - 1];
      OfferedIsForward(cs[n - 1], cs[n]);
      forall k | 0 <= k < |cs|
        ensures InLifecycle(cs[k]) && Rank(cs[0]) + k <= Rank(cs[k])
      {
        if k < n {
          assert cs[k] == init[k];
        }
      }
    }
  }

  /** Any chain of offered transitions takes at most three steps:
      the longest is pending, preparing, ready_for_pickup, then one of the
      two final statuses. */
  lemma ChainTakesAtMostThreeSteps(cs: seq<Status>)
    requires IsChain(cs)
    ensures |cs| <= 4
  {
    if |cs| >= 2 {
      ChainRankGrows(cs);
      var n := |cs| - 1;
      OfferedIsForward(cs[n - 1], cs[n]);
    }
  }

  /** The three-step bound is tight. */
  lemma LongestChainExists()
    ensures IsChain([Pending, Preparing, ReadyForPickup, Delivered])
    ensures IsChain([Pending, Preparing, ReadyForPickup, OutForDelivery])
  {
  }

  /** No status is revisited along a chain. */
  lemma ChainNeverRevisits(cs: seq<Status>, i: int, j: int)
    requires IsChain(cs)
    requires 0 <= i < j < |cs|
    ensures cs[i] != cs[j]
  {
    var tail := cs[i..];
    assert IsChain(tail) by {
      forall k | 0 <= k < |tail| - 1
        ensures tail[k + 1] in OfferedTargets(tail[k])
      {
        assert tail[k] == cs[i + k] && tail[k + 1] == cs[i + k + 1];
      }
    }
    ChainRankGrows(tail);
    assert tail[0] == cs[i] && tail[j - i] == cs[j];
  }
}
