/** A rental as the browser holds it after it came over the wire: the
    status is plain text and the creation time may be missing. Used by the
    rental slice, the dashboard and the rental details page. */
module ClientRentals {
  import opened Base
  import RentalSchema

  datatype ClientRental = ClientRental(
    id: string,
    carId: int,
    startDate: int,
    endDate: int,
    totalCost: real,
    status: string,
    createdAt: Option<int>)

  /** The JSON form of a stored rental as the client receives it. */
  function FromServer(r: RentalSchema.Rental): (c: ClientRental)
    ensures c.id == r.id && c.createdAt == Some(r.createdAt)
    ensures RentalSchema.StatusFromName(c.status) == Some(r.status)
    ensures c.status == "active" <==> r.status == RentalSchema.Active
  {
    ClientRental(r.id, r.carId, r.startDate, r.endDate, r.totalCost,
                 RentalSchema.StatusName(r.status), Some(r.createdAt))
  }
}
