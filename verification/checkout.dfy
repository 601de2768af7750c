/** The checkout page: rental duration in whole days, the price, and the
    booking request it posts to the server. The two dates arrive as parsed
    timestamps in milliseconds, None when the date input is empty; a plain
    calendar date parses to a whole number of days. */
module Checkout {
  import opened Base
  import opened TimeWindow
  import Catalog
  import UserTypes
  import RentalSchema
  import RentalController

  function Abs(x: int): nat {
    if x < 0 then -x else x
  }

  /** `Math.ceil(ms / (1000 * 60 * 60 * 24))` for a non-negative span. */
  function CeilDays(ms: nat): (d: nat)
    ensures d * MsPerDay >= ms
    ensures d == 0 || (d - 1) * MsPerDay < ms
  {
    (ms + MsPerDay - 1) / MsPerDay
  }

  /** A span of whole days rounds to itself. */
  lemma CeilDaysExact(k: nat)
    ensures CeilDays(k * MsPerDay) == k
  {
  }

  /** `calculateRentalDuration`: 0 when either date is empty, otherwise the
      distance between the dates rounded up to whole days. */
  function RentalDuration(pickup: Option<int>, ret: Option<int>): (d: nat)
    ensures pickup.None? || ret.None? ==> d == 0
    ensures pickup.Some? && ret.Some? ==>
              d * MsPerDay >= Abs(ret.value - pickup.value)
              && (d == 0 || (d - 1) * MsPerDay < Abs(ret.value - pickup.value))
  {
    if pickup.None? || ret.None? then 0
    else CeilDays(Abs(ret.value - pickup.value))
  }

  /** Swapping the dates does not change the duration. */
  lemma DurationSymmetric(a: Option<int>, b: Option<int>)
    ensures RentalDuration(a, b) == RentalDuration(b, a)
  {
    if a.Some? && b.Some? {
      assert Abs(b.value - a.value) == Abs(a.value - b.value);
    }
  }

  /** Returning on the pickup date is a rental of zero days. */
  lemma SameDateIsZeroDays(t: int)
    ensures RentalDuration(Some(t), Some(t)) == 0
  {
  }

  /** Two calendar dates, days `p` and `q`, are `|q - p|` days apart. */
  lemma CalendarDuration(p: int, q: int)
    ensures RentalDuration(Some(p * MsPerDay), Some(q * MsPerDay)) == Abs(q - p)
  {
    assert q * MsPerDay - p * MsPerDay == (q - p) * MsPerDay;
    assert Abs(q * MsPerDay - p * MsPerDay) == Abs(q - p) * MsPerDay;
    CeilDaysExact(Abs(q - p));
  }

  /** `totalPrice`: the daily price times the duration, 0 without a car. */
  function TotalPrice(car: Option<Catalog.Car>, duration: nat): (p: int)
    ensures car.None? || duration == 0 ==> p == 0
    ensures car.Some? && car.value.pricePerDay > 0 ==> (p > 0 <==> duration > 0)
  {
    match car
    case None => 0
    case Some(c) => c.pricePerDay * duration
  }

  /** The request body posted on submit. The server takes the owner from
      the token and ignores `user`. */
  datatype Booking = Booking(
    user: Option<string>,
    carId: int,
    startDate: Option<int>,
    endDate: Option<int>,
    totalCost: int,
    status: string)

  /** `handleSubmit`: nothing is posted without a car or a signed-in user;
      otherwise the booking carries the car, both dates unchanged, the
      shown price as total cost and the status "active". */
  function HandleSubmit(car: Option<Catalog.Car>, user: Option<UserTypes.UserInfo>,
                        pickup: Option<int>, ret: Option<int>): (b: Option<Booking>)
    ensures b.Some? <==> car.Some? && user.Some?
    ensures b.Some? ==>
              && b.value.carId == car.value.id
              && b.value.user == user.value.id
              && b.value.startDate == pickup && b.value.endDate == ret
              && b.value.status == "active"
              && b.value.totalCost == TotalPrice(car, RentalDuration(pickup, ret))
  {
    if car.None? || user.None? then None
    else
      var price := TotalPrice(car, RentalDuration(pickup, ret));
      Some(Booking(user.value.id, car.value.id, pickup, ret, price, "active"))
  }

  /** The booking as the create handler reads it. */
  function ToCreateBody(b: Booking): (c: RentalController.CreateBody)
    ensures c.carId == Some(b.carId) && c.totalCost == Some(b.totalCost as real)
    ensures c.startDate == b.startDate && c.endDate == b.endDate
  {
    RentalController.CreateBody(Some(b.carId), b.startDate, b.endDate, Some(b.totalCost as real))
  }

  /** A booking of a catalog car over two different calendar dates is
      accepted by the server, which stores the price the page showed. */
  lemma BookingAccepted(store: RentalSchema.RentalStore, owner: string, now: int,
                        newId: string, k: nat, u: UserTypes.UserInfo, p: int, q: int)
    requires !RentalSchema.HasId(store, newId)
    requires k < |Catalog.AllCars| && p != q
    ensures var car := Catalog.AllCars[k];
            var b := HandleSubmit(Some(car), Some(u), Some(p * MsPerDay), Some(q * MsPerDay)).value;
            var h := RentalController.CreateRental(store, Some(owner), now, newId, ToCreateBody(b));
            h.reply.Ok? && h.reply.body.totalCost == (car.pricePerDay * Abs(q - p)) as real
  {
    Catalog.CatalogIds();
    Catalog.CatalogWellFormed();
    CalendarDuration(p, q);
  }

  /** Returning a car on its pickup date prices the booking at 0, which
      the server reads as a missing total and refuses. */
  lemma SameDayBookingRefused(store: RentalSchema.RentalStore, owner: string, now: int,
                              newId: string, car: Catalog.Car, u: UserTypes.UserInfo, t: int)
    requires !RentalSchema.HasId(store, newId)
    ensures var b := HandleSubmit(Some(car), Some(u), Some(t), Some(t)).value;
            RentalController.CreateRental(store, Some(owner), now, newId, ToCreateBody(b))
              == Handled(store, Rejected(400, RentalController.FieldsRequired))
  {
  }
}
