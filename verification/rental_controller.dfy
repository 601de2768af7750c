/** The rental request handlers: create, update, cancel and list. Each
    handler takes the store, the authenticated requester, the server clock
    and the request, and returns the new store with the reply. Update and
    cancel take the requester but, like the handlers they model, never look
    at it. */
module RentalController {
  import opened Base
  import opened RentalSchema
  import opened TimeWindow
  import Seqs

  const FieldsRequired := "All fields are required"
  const NoUser := "Unauthorized: No user found"
  const RentalNotFound := "Rental not found"
  const UpdateTooLate := "Rental cannot be updated after 12 hours"
  const OnlyActiveUpdatable := "Only active rentals can be updated"
  const CancelTooLate := "Rental cannot be cancelled after 12 hours"
  const RentalCancelledMessage := "Rental cancelled"

  /** The body of a successful cancel: a confirmation next to the record. */
  datatype CancelAnswer = CancelAnswer(message: string, rental: Rental)

  /** The create request body. A date is None when missing or empty; a
      number is None when missing. */
  datatype CreateBody = CreateBody(
    carId: Option<int>,
    startDate: Option<int>,
    endDate: Option<int>,
    totalCost: Option<real>)

  /** The update request body. */
  datatype UpdateBody = UpdateBody(
    startDate: Option<int>,
    endDate: Option<int>,
    pricePerDay: Option<real>)

  /** The create handler's presence test: every field truthy, so a zero
      car id or a zero total cost counts as missing. */
  predicate CreateFieldsPresent(b: CreateBody) {
    NonZero(b.carId) && b.startDate.Some? && b.endDate.Some? && NonZeroReal(b.totalCost)
  }

  /** POST /rentals. `newId` is the fresh id the database assigns. */
  function CreateRental(store: RentalStore, requester: Option<ObjectId>, now: int,
                        newId: ObjectId, body: CreateBody): (h: Handled<RentalStore, Rental>)
    requires !HasId(store, newId)
    ensures !CreateFieldsPresent(body) ==> h == Handled(store, Rejected(400, FieldsRequired))
    ensures CreateFieldsPresent(body) && requester.None? ==>
              h == Handled(store, Rejected(401, NoUser))
    ensures h.reply.Ok? <==> CreateFieldsPresent(body) && requester.Some?
    ensures h.reply.Ok? ==>
              && h.reply.code == 201
              && h.store == store + [h.reply.body]
              && h.reply.body.id == newId
              && h.reply.body.user == requester.value
              && h.reply.body.status == Active
              && Some(h.reply.body.carId) == body.carId
              && Some(h.reply.body.startDate) == body.startDate
              && Some(h.reply.body.endDate) == body.endDate
              && Some(h.reply.body.totalCost) == body.totalCost
              && h.reply.body.createdAt == now
    ensures IdsDistinct(store) ==> IdsDistinct(h.store)
  {
    if !CreateFieldsPresent(body) then Handled(store, Rejected(400, FieldsRequired))
    else if requester.None? then Handled(store, Rejected(401, NoUser))
    else
      var draft := Draft(Some(requester.value), body.carId, body.startDate, body.endDate,
                         body.totalCost, Some(StatusName(Active)));
      match Create(draft, newId, now)
      case Some(r) => Handled(store + [r], Ok(201, r))
      case None => assert false; Handled(store, Rejected(500, ""))
  }

  /** The recomputed total: the fractional (possibly negative) number of
      days between the dates, times the daily price. */
  function RecomputedCost(startDate: int, endDate: int, pricePerDay: real): real {
    ((endDate - startDate) as real / (MsPerDay as real)) * pricePerDay
  }

  /** The update body applied to a rental: each supplied date overwrites
      its field, and the cost is recomputed only when both dates and the
      price are supplied. */
  function ApplyUpdate(r: Rental, b: UpdateBody, now: int): (r': Rental)
    ensures r'.startDate == b.startDate.GetOr(r.startDate)
    ensures r'.endDate == b.endDate.GetOr(r.endDate)
    ensures b.startDate.Some? && b.endDate.Some? && NonZeroReal(b.pricePerDay) ==>
              r'.totalCost == RecomputedCost(b.startDate.value, b.endDate.value, b.pricePerDay.value)
    ensures !(b.startDate.Some? && b.endDate.Some? && NonZeroReal(b.pricePerDay)) ==>
              r'.totalCost == r.totalCost
    ensures r'.id == r.id && r'.user == r.user && r'.carId == r.carId
    ensures r'.status == r.status && r'.createdAt == r.createdAt
    ensures r'.updatedAt == now
  {
    var withStart := if b.startDate.Some? then r.(startDate := b.startDate.value) else r;
    var withEnd := if b.endDate.Some? then withStart.(endDate := b.endDate.value) else withStart;
    var withCost :=
      if b.startDate.Some? && b.endDate.Some? && NonZeroReal(b.pricePerDay)
      then withEnd.(totalCost := RecomputedCost(b.startDate.value, b.endDate.value, b.pricePerDay.value))
      else withEnd;
    withCost.(updatedAt := now)
  }

  /** PUT /rentals/:id. */
  function UpdateRental(store: RentalStore, requester: ObjectId, now: int,
                        id: ObjectId, body: UpdateBody): (h: Handled<RentalStore, Rental>)
    ensures !HasId(store, id) ==> h == Handled(store, Rejected(404, RentalNotFound))
    ensures HasId(store, id) ==>
              var i := IndexOf(store, id).value;
              && (h.reply == Rejected(400, UpdateTooLate) <==> now - store[i].createdAt > TwelveHoursMs)
              && (h.reply == Rejected(400, OnlyActiveUpdatable) <==>
                    now - store[i].createdAt <= TwelveHoursMs && store[i].status != Active)
              && (h.reply.Ok? <==>
                    now - store[i].createdAt <= TwelveHoursMs && store[i].status == Active)
              && (h.reply.Rejected? ==> h.store == store)
              && (h.reply.Ok? ==>
                    h.reply.code == 200 && h.reply.body == ApplyUpdate(store[i], body, now)
                    && h.store == Seqs.ReplaceAt(store, i, h.reply.body))
  {
    match IndexOf(store, id)
    case None => Handled(store, Rejected(404, RentalNotFound))
    case Some(i) =>
      var r := store[i];
      ExpiredIffPastTwelveHours(r.createdAt, now);
      if WindowExpired(r.createdAt, now) then Handled(store, Rejected(400, UpdateTooLate))
      else if r.status != Active then Handled(store, Rejected(400, OnlyActiveUpdatable))
      else
        var r' := ApplyUpdate(r, body, now);
        Handled(Seqs.ReplaceAt(store, i, r'), Ok(200, r'))
  }

  /** PUT /rentals/:id/cancel. The window is the only gate: any status is
      cancelled while inside it. */
  function CancelRental(store: RentalStore, requester: ObjectId, now: int,
                        id: ObjectId): (h: Handled<RentalStore, CancelAnswer>)
    ensures !HasId(store, id) ==> h == Handled(store, Rejected(404, RentalNotFound))
    ensures HasId(store, id) ==>
              var i := IndexOf(store, id).value;
              && (h.reply.Ok? <==> now - store[i].createdAt <= TwelveHoursMs)
              && (h.reply.Rejected? ==> h == Handled(store, Rejected(400, CancelTooLate)))
              && (h.reply.Ok? ==>
                    h.reply.code == 200
                    && h.reply.body.message == RentalCancelledMessage
                    && h.reply.body.rental == store[i].(status := Cancelled, updatedAt := now)
                    && h.store == Seqs.ReplaceAt(store, i, h.reply.body.rental))
  {
    match IndexOf(store, id)
    case None => Handled(store, Rejected(404, RentalNotFound))
    case Some(i) =>
      var r := store[i];
      ExpiredIffPastTwelveHours(r.createdAt, now);
      if WindowExpired(r.createdAt, now) then Handled(store, Rejected(400, CancelTooLate))
      else
        var r' := r.(status := Cancelled, updatedAt := now);
        Handled(Seqs.ReplaceAt(store, i, r'), Ok(200, CancelAnswer(RentalCancelledMessage, r')))
  }

  /** GET /rentals: the requester's rentals in store order. */
  function GetUserRentals(store: RentalStore, requester: ObjectId): (rs: seq<Rental>)
    ensures forall i :: 0 <= i < |rs| ==> rs[i].user == requester
    ensures forall i :: 0 <= i < |store| && store[i].user == requester ==> store[i] in rs
    ensures multiset(rs) <= multiset(store)
  {
    Seqs.Filter(store, (r: Rental) => r.user == requester)
  }

  // ---------------------------------------------------------------------
  // Properties relating several calls

  /** Neither update nor cancel depends on who asks. */
  lemma NoOwnerCheck(store: RentalStore, a: ObjectId, b: ObjectId, now: int,
                     id: ObjectId, body: UpdateBody)
    ensures UpdateRental(store, a, now, id, body) == UpdateRental(store, b, now, id, body)
    ensures CancelRental(store, a, now, id) == CancelRental(store, b, now, id)
  {
  }

  /** Replacing a record by one with the same id keeps ids distinct. */
  lemma ReplaceKeepsIdsDistinct(store: RentalStore, i: nat, r: Rental)
    requires i < |store| && IdsDistinct(store) && r.id == store[i].id
    ensures IdsDistinct(Seqs.ReplaceAt(store, i, r))
  {
    var s' := Seqs.ReplaceAt(store, i, r);
    forall j, k | 0 <= j < k < |s'|
      ensures s'[j].id != s'[k].id
    {
      assert s'[j].id == store[j].id && s'[k].id == store[k].id;
    }
  }

  /** Update and cancel never break id uniqueness. */
  lemma MutationsKeepIdsDistinct(store: RentalStore, requester: ObjectId,
                                                    now: int, id: ObjectId, body: UpdateBody)
    requires IdsDistinct(store)
    ensures IdsDistinct(UpdateRental(store, requester, now, id, body).store)
    ensures IdsDistinct(CancelRental(store, requester, now, id).store)
  {
    if HasId(store, id) {
      var i := IndexOf(store, id).value;
      ReplaceKeepsIdsDistinct(store, i, ApplyUpdate(store[i], body, now));
      ReplaceKeepsIdsDistinct(store, i, store[i].(status := Cancelled, updatedAt := now));
    }
  }

  /** A freshly created rental can be updated by anyone for the next twelve
      hours, boundary included. */
  lemma CreatedRentalUpdatableWithinWindow(
    store: RentalStore, owner: ObjectId, created: int, newId: ObjectId, body: CreateBody,
    other: ObjectId, later: int, update: UpdateBody)
    requires !HasId(store, newId)
    requires CreateFieldsPresent(body)
    requires created <= later <= created + TwelveHoursMs
    ensures var h := CreateRental(store, Some(owner), created, newId, body);
            UpdateRental(h.store, other, later, newId, update).reply.Ok?
  {
    var h := CreateRental(store, Some(owner), created, newId, body);
    assert h.store[|store|].id == newId;
    assert HasId(h.store, newId);
    var i := IndexOf(h.store, newId).value;
    assert i == |store|;
  }

  /** Once cancelled, a rental still inside its window is refused by update
      with the status message. */
  lemma CancelledRentalNotUpdatable(
    store: RentalStore, a: ObjectId, b: ObjectId, t1: int, t2: int, id: ObjectId, body: UpdateBody)
    requires IdsDistinct(store)
    requires CancelRental(store, a, t1, id).reply.Ok?
    requires t2 - CancelRental(store, a, t1, id).reply.body.rental.createdAt <= TwelveHoursMs
    ensures UpdateRental(CancelRental(store, a, t1, id).store, b, t2, id, body).reply
            == Rejected(400, OnlyActiveUpdatable)
  {
    var h := CancelRental(store, a, t1, id);
    var i := IndexOf(store, id).value;
    assert h.store[i].id == id;
    ReplaceKeepsIdsDistinct(store, i, h.reply.body.rental);
    assert IndexOf(h.store, id).value == i;
  }

  /** Cancel has no status check: a completed rental inside its window
      becomes cancelled. */
  lemma CancelOverridesCompleted(store: RentalStore, requester: ObjectId,
                                                    now: int, i: nat)
    requires IdsDistinct(store)
    requires i < |store| && store[i].status == Completed
    requires now - store[i].createdAt <= TwelveHoursMs
    ensures CancelRental(store, requester, now, store[i].id).store[i].status == Cancelled
  {
    assert HasId(store, store[i].id);
  }
}
