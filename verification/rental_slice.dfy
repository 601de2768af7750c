/** The client's rental store: the list of the user's rentals with a
    loading flag and the last error, and one transition per action. Each
    transition states what it changes and that nothing else changes. */
module RentalSlice {
  import opened Base
  import Seqs
  import opened ClientRentals

  datatype RentalState = RentalState(
    rentals: seq<ClientRental>,
    loading: bool,
    error: Option<string>)

  const Initial := RentalState([], false, None)

  /** `resetRentalState`. */
  function Reset(s: RentalState): (t: RentalState)
    ensures t == Initial
  {
    s.(rentals := [], loading := false, error := None)
  }

  /** `createRental.pending` and `fetchMyRentals.pending`: loading, and the
      error of an earlier failure stays. */
  function Pending(s: RentalState): (t: RentalState)
    ensures t.loading && t.rentals == s.rentals && t.error == s.error
  {
    s.(loading := true)
  }

  /** `createRental.fulfilled`: the new rental goes to the end. */
  function CreateFulfilled(s: RentalState, payload: ClientRental): (t: RentalState)
    ensures !t.loading && t.error == s.error
    ensures |t.rentals| == |s.rentals| + 1 && t.rentals[|s.rentals|] == payload
    ensures t.rentals[..|s.rentals|] == s.rentals
  {
    s.(loading := false, rentals := s.rentals + [payload])
  }

  /** `createRental.rejected` and `fetchMyRentals.rejected`. */
  function LoadRejected(s: RentalState, message: string): (t: RentalState)
    ensures !t.loading && t.error == Some(message) && t.rentals == s.rentals
  {
    s.(loading := false, error := Some(message))
  }

  /** `fetchMyRentals.fulfilled`: the fetched list replaces the old one. */
  function FetchFulfilled(s: RentalState, payload: seq<ClientRental>): (t: RentalState)
    ensures !t.loading && t.rentals == payload && t.error == s.error
  {
    s.(loading := false, rentals := payload)
  }

  predicate SameId(id: string, r: ClientRental) {
    r.id == id
  }

  /** Replace the first rental carrying the payload's id by the payload;
      without such a rental the list is returned as it was. */
  function ReplaceById(rentals: seq<ClientRental>, payload: ClientRental): (r: seq<ClientRental>)
    ensures |r| == |rentals|
    ensures (forall k :: 0 <= k < |rentals| ==> rentals[k].id != payload.id) ==> r == rentals
    ensures forall k :: 0 <= k < |r| ==> r[k] == rentals[k] || (r[k] == payload && rentals[k].id == payload.id)
    ensures forall k :: (0 <= k < |r| && rentals[k].id == payload.id
                         && forall j :: 0 <= j < k ==> rentals[j].id != payload.id)
                        ==> r[k] == payload
    ensures forall k :: (0 <= k < |r| && exists j :: 0 <= j < k && rentals[j].id == payload.id)
                        ==> r[k] == rentals[k]
  {
    match Seqs.FindIndex(rentals, (x: ClientRental) => SameId(payload.id, x))
    case None => rentals
    case Some(i) => Seqs.ReplaceAt(rentals, i, payload)
  }

  /** Replacing by id keeps every position's id, so the list stays the same
      list of rentals in the same order. */
  lemma ReplaceKeepsIds(rentals: seq<ClientRental>, payload: ClientRental)
    ensures var r := ReplaceById(rentals, payload);
            forall k :: 0 <= k < |r| ==> r[k].id == rentals[k].id
  {
  }

  /** `updateRental.fulfilled` and `cancelRental.fulfilled`. */
  function ChangeFulfilled(s: RentalState, payload: ClientRental): (t: RentalState)
    ensures !t.loading && t.error == s.error
    ensures t.rentals == ReplaceById(s.rentals, payload)
  {
    s.(loading := false, rentals := ReplaceById(s.rentals, payload))
  }

  /** `updateRental.rejected` and `cancelRental.rejected`: only the error
      is set; the loading flag is left as it was. */
  function ChangeRejected(s: RentalState, message: string): (t: RentalState)
    ensures t.error == Some(message)
    ensures t.loading == s.loading && t.rentals == s.rentals
  {
    s.(error := Some(message))
  }

  /** A fetch that fails leaves the list that was on screen. */
  lemma FailedFetchKeepsList(s: RentalState, message: string)
    ensures LoadRejected(Pending(s), message).rentals == s.rentals
    ensures !LoadRejected(Pending(s), message).loading
  {
  }

  /** After a fetch, an update of one of the fetched rentals replaces it
      in place and leaves the others. */
  lemma UpdateAfterFetch(s: RentalState, list: seq<ClientRental>, k: nat, payload: ClientRental)
    requires k < |list| && list[k].id == payload.id
    requires forall i, j :: 0 <= i < j < |list| ==> list[i].id != list[j].id
    ensures var t := ChangeFulfilled(FetchFulfilled(s, list), payload);
            |t.rentals| == |list| && t.rentals[k] == payload
            && forall j :: 0 <= j < |list| && j != k ==> t.rentals[j] == list[j]
  {
    var r := ReplaceById(list, payload);
    forall j | 0 <= j < |list| && j != k
      ensures r[j] == list[j]
    {
      assert list[j].id != payload.id;
    }
  }
}
