/** The order statuses and their transition table. */
module OrderStatus {

  datatype Status = Draft | Pending | Courtesy | Paid | Shipped | Delivered | Completed | Returned | Cancelled

  function ValidTransitions(status: Status): set<Status>
  {
    match status
    case Draft => {Pending, Courtesy, Cancelled}
    case Pending => {Paid, Cancelled}
    case Courtesy => {Shipped, Status.Delivered, Cancelled}
    case Paid => {Shipped, Cancelled}
    case Shipped => {Delivered, Cancelled}
    case Delivered => {Completed, Returned}
    case _ => {}
  }

  /** The table as paths: a sale goes from draft to completion, or ends returned; a courtesy
      joins it at shipping or at delivery; and what is not yet delivered can be cancelled. */
  lemma TransitionPaths(before: Status, after: Status)
    ensures after in ValidTransitions(before) <==>
            || (before, after) in {(Draft, Pending), (Pending, Paid), (Paid, Shipped), (Shipped, Delivered),
                                   (Delivered, Completed), (Delivered, Returned)}
            || (before, after) in {(Draft, Courtesy), (Courtesy, Shipped), (Courtesy, Delivered)}
            || (after == Cancelled && before in {Draft, Pending, Courtesy, Paid, Shipped})
  {
    match before {
      case _ =>
    }
  }

  /** A strict rank: every transition climbs it. */
  function Rank(status: Status): nat
  {
    match status
    case Draft => 0
    case Pending => 1
    case Courtesy => 1
    case Paid => 2
    case Shipped => 3
    case Delivered => 4
    case _ => 5
  }

  /** A history in which every change is allowed by the table. */
  predicate IsTrail(trail: seq<Status>)
  {
    forall i :: 0 <= i < |trail| - 1 ==> trail[i + 1] in ValidTransitions(trail[i])
  }

  lemma TransitionsClimb(before: Status, after: Status)
    requires after in ValidTransitions(before)
    ensures Rank(before) < Rank(after)
  {
  }

  lemma {:induction false} TrailClimbs(trail: seq<Status>, i: nat, j: nat)
    requires IsTrail(trail) && i <= j < |trail|
    ensures Rank(trail[j]) >= Rank(trail[i]) + (j - i)
    decreases j
  {
    if i < j {
      TrailClimbs(trail, i, j - 1);
      assert trail[j - 1 + 1] in ValidTransitions(trail[j - 1]);
      TransitionsClimb(trail[j - 1], trail[j]);
    }
  }

  /** A history has at most five changes, never visits a status twice, and ends at the
      first cancellation, return or completion. */
  lemma TrailsAreShort(trail: seq<Status>)
    requires IsTrail(trail)
    ensures |trail| <= 6
    ensures forall i, j :: 0 <= i < j < |trail| ==> trail[i] != trail[j]
    ensures forall i :: 0 <= i < |trail| && trail[i] in {Completed, Returned, Cancelled} ==> i == |trail| - 1
  {
    if trail != [] {
      TrailClimbs(trail, 0, |trail| - 1);
    }
    forall i, j | 0 <= i < j < |trail| ensures trail[i] != trail[j] {
      TrailClimbs(trail, i, j);
    }
    forall i | 0 <= i < |trail| && trail[i] in {Completed, Returned, Cancelled} ensures i == |trail| - 1 {
      TrailClimbs(trail, i, |trail| - 1);
    }
  }
}
