/** The dashboard's rental statistics: the total, the active count and the
    completed count shown side by side. */
module Dashboard {
  import Seqs
  import opened ClientRentals

  predicate IsActive(r: ClientRental) {
    r.status == "active"
  }

  predicate IsCompleted(r: ClientRental) {
    r.status == "completed"
  }

  /** A status the dashboard does not count: "cancelled", or anything else. */
  predicate IsUncounted(r: ClientRental) {
    !IsActive(r) && !IsCompleted(r)
  }

  /** `activeCount`: the number of rentals whose status is "active". */
  function ActiveCount(rentals: seq<ClientRental>): (n: nat)
    ensures n == Seqs.Count(rentals, IsActive)
    ensures n == 0 <==> forall i :: 0 <= i < |rentals| ==> !IsActive(rentals[i])
  {
    Seqs.FilterLengthIsCount(rentals, IsActive);
    |Seqs.Filter(rentals, IsActive)|
  }

  /** `completedCount`: the number of rentals whose status is "completed". */
  function CompletedCount(rentals: seq<ClientRental>): (n: nat)
    ensures n == Seqs.Count(rentals, IsCompleted)
    ensures n == 0 <==> forall i :: 0 <= i < |rentals| ==> !IsCompleted(rentals[i])
  {
    Seqs.FilterLengthIsCount(rentals, IsCompleted);
    |Seqs.Filter(rentals, IsCompleted)|
  }

  /** Every rental falls in exactly one of: active, completed, neither. */
  lemma {:induction false} StatusPartition(rentals: seq<ClientRental>)
    ensures Seqs.Count(rentals, IsActive) + Seqs.Count(rentals, IsCompleted)
            + Seqs.Count(rentals, IsUncounted) == |rentals|
  {
    if rentals != [] {
      StatusPartition(rentals[1..]);
    }
  }

  /** The two figures never exceed the displayed total, and fall short of
      it by the number of rentals in neither state. */
  lemma CountsWithinTotal(rentals: seq<ClientRental>)
    ensures ActiveCount(rentals) + CompletedCount(rentals)
            == |rentals| - Seqs.Count(rentals, IsUncounted)
    ensures ActiveCount(rentals) + CompletedCount(rentals) <= |rentals|
  {
    StatusPartition(rentals);
  }

  /** A cancelled rental moves neither figure. */
  lemma CancelledCountsInNeither(rentals: seq<ClientRental>, r: ClientRental)
    requires r.status == "cancelled"
    ensures ActiveCount(rentals + [r]) == ActiveCount(rentals)
    ensures CompletedCount(rentals + [r]) == CompletedCount(rentals)
    ensures |rentals + [r]| == |rentals| + 1
  {
    Seqs.CountAppend(rentals, [r], IsActive);
    Seqs.CountAppend(rentals, [r], IsCompleted);
  }
}
