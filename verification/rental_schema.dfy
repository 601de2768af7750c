/** The stored rental record: its fields, the status enumeration with its
    default, the required-field validation applied when a record is created,
    and the store-assigned timestamps. */
module RentalSchema {
  import opened Base
  import Seqs

  /** Database object ids (users and rentals), compared as strings. */
  type ObjectId = string

  datatype Status = Active | Cancelled | Completed

  /** The enumeration's stored spelling. */
  function StatusName(s: Status): string {
    match s
    case Active => "active"
    case Cancelled => "cancelled"
    case Completed => "completed"
  }

  /** Enum validation: a status string is accepted only when it is one of
      the three names. */
  function StatusFromName(name: string): (r: Option<Status>)
    ensures r.Some? <==> name in {"active", "cancelled", "completed"}
    ensures r.Some? ==> StatusName(r.value) == name
  {
    if name == "active" then Some(Active)
    else if name == "cancelled" then Some(Cancelled)
    else if name == "completed" then Some(Completed)
    else None
  }

  /** Every status survives the trip through its stored name. */
  lemma StatusNameRoundTrip(s: Status)
    ensures StatusFromName(StatusName(s)) == Some(s)
  {
  }

  /** The status a new record gets when none is supplied. */
  const DefaultStatus: Status := Active

  /** A stored rental. Dates and timestamps are milliseconds since the epoch. */
  datatype Rental = Rental(
    id: ObjectId,
    user: ObjectId,
    carId: int,
    startDate: int,
    endDate: int,
    totalCost: real,
    status: Status,
    createdAt: int,
    updatedAt: int)

  /** The fields handed to the store on creation; None is a missing value. */
  datatype Draft = Draft(
    user: Option<ObjectId>,
    carId: Option<int>,
    startDate: Option<int>,
    endDate: Option<int>,
    totalCost: Option<real>,
    status: Option<string>)

  /** Creation in the store: rejected (None) when a required field is
      missing or the status is not one of the enumeration; otherwise a
      record whose status defaults to active and whose timestamps are both
      set by the store to `now`, whatever the draft said. */
  function Create(d: Draft, id: ObjectId, now: int): (r: Option<Rental>)
    ensures r.Some? <==>
              d.user.Some? && d.carId.Some? && d.startDate.Some?
              && d.endDate.Some? && d.totalCost.Some?
              && (d.status.None? || StatusFromName(d.status.value).Some?)
    ensures r.Some? ==>
              && r.value.id == id
              && Some(r.value.user) == d.user
              && Some(r.value.carId) == d.carId
              && Some(r.value.startDate) == d.startDate
              && Some(r.value.endDate) == d.endDate
              && Some(r.value.totalCost) == d.totalCost
              && r.value.createdAt == now && r.value.updatedAt == now
    ensures r.Some? && d.status.None? ==> r.value.status == Active
    ensures r.Some? && d.status.Some? ==> StatusName(r.value.status) == d.status.value
  {
    if d.user.None? || d.carId.None? || d.startDate.None?
       || d.endDate.None? || d.totalCost.None? then None
    else
      var status :=
        if d.status.None? then Some(DefaultStatus) else StatusFromName(d.status.value);
      match status
      case None => None
      case Some(st) =>
        Some(Rental(id, d.user.value, d.carId.value, d.startDate.value,
                    d.endDate.value, d.totalCost.value, st, now, now))
  }

  /** The rental collection, in natural (insertion) order. */
  type RentalStore = seq<Rental>

  /** Ids identify records: no two stored rentals share one. */
  predicate IdsDistinct(store: RentalStore) {
    forall i, j :: 0 <= i < j < |store| ==> store[i].id != store[j].id
  }

  predicate HasId(store: RentalStore, id: ObjectId) {
    exists i :: 0 <= i < |store| && store[i].id == id
  }

  /** The position of the record with id `id` (`findById`). */
  function IndexOf(store: RentalStore, id: ObjectId): (r: Option<nat>)
    ensures r.Some? ==> r.value < |store| && store[r.value].id == id
    ensures r.None? <==> !HasId(store, id)
    ensures r.Some? && IdsDistinct(store) ==>
              forall j :: 0 <= j < |store| && store[j].id == id ==> j == r.value
  {
    Seqs.FindIndex(store, (x: Rental) => x.id == id)
  }
}
