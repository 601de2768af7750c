/** The car details page: the car chosen by the route id, and its image
    carousel, moved by the two arrow buttons and by a timer. */
module CarDetails {
  import opened Base
  import Catalog

  /** The route id, parsed; None when it is missing or not a number. */
  function CarForRoute(carId: Option<int>): (c: Option<Catalog.Car>)
    ensures carId.None? ==> c.None?
    ensures carId.Some? ==> c == Catalog.FindCarById(carId.value)
  {
    match carId
    case None => None
    case Some(id) => Catalog.FindCarById(id)
  }

  /** `goToNextImage`, for `n` images. */
  function NextImage(i: nat, n: nat): (j: nat)
    requires n >= 1
    ensures j < n
    ensures i + 1 < n ==> j == i + 1
    ensures i == n - 1 ==> j == 0
  {
    (i + 1) % n
  }

  /** `goToPreviousImage`, for `n` images. */
  function PreviousImage(i: nat, n: nat): (j: nat)
    requires n >= 1
    ensures j < n
    ensures 0 < i <= n ==> j == i - 1
    ensures i == 0 ==> j == n - 1
  {
    (i - 1 + n) % n
  }

  /** Each button undoes the other. */
  lemma NextPreviousInverse(i: nat, n: nat)
    requires n >= 1 && i < n
    ensures PreviousImage(NextImage(i, n), n) == i
    ensures NextImage(PreviousImage(i, n), n) == i
  {
  }

  /** One press: true for the next arrow, false for the previous one. */
  function Press(i: nat, n: nat, next: bool): nat
    requires n >= 1
  {
    if next then NextImage(i, n) else PreviousImage(i, n)
  }

  /** The index after a run of presses from image 0. */
  function AfterPresses(n: nat, presses: seq<bool>): nat
    requires n >= 1
  {
    if presses == [] then 0
    else Press(AfterPresses(n, presses[..|presses| - 1]), n, presses[|presses| - 1])
  }

  /** Forward presses minus backward presses. */
  function Net(presses: seq<bool>): int {
    if presses == [] then 0
    else Net(presses[..|presses| - 1]) + (if presses[|presses| - 1] then 1 else -1)
  }

  /** How often a run of presses wrapped around: +1 for each step forward
      from the last image, -1 for each step back from the first. */
  function Laps(n: nat, presses: seq<bool>): int
    requires n >= 1
  {
    if presses == [] then 0
    else
      var init := presses[..|presses| - 1];
      var i := AfterPresses(n, init);
      var next := presses[|presses| - 1];
      Laps(n, init) + (if next && i + 1 >= n then 1 else if !next && i == 0 then -1 else 0)
  }

  /** However the arrows are pressed, the shown image exists, and it is
      the net number of forward presses with whole laps removed: the
      position is the net count modulo `n`. */
  lemma {:induction false} PressesStayInRange(n: nat, presses: seq<bool>)
    requires n >= 1
    ensures AfterPresses(n, presses) < n
    ensures Net(presses) == Laps(n, presses) * n + AfterPresses(n, presses)
  {
    if presses != [] {
      var init := presses[..|presses| - 1];
      PressesStayInRange(n, init);
      var l := Laps(n, init);
      var i := AfterPresses(n, init);
      var next := presses[|presses| - 1];
      assert presses[..|presses| - 1] == init;
      var j := AfterPresses(n, presses);
      assert j == Press(i, n, next);
      assert Net(presses) == l * n + i + (if next then 1 else -1);
      if next && i + 1 >= n {
        assert j == 0 && Laps(n, presses) == l + 1;
        assert (l + 1) * n == l * n + n;
      } else if !next && i == 0 {
        assert j == n - 1 && Laps(n, presses) == l - 1;
        assert (l - 1) * n == l * n - n;
      } else {
        assert Laps(n, presses) == l;
        assert j == i + (if next then 1 else -1);
      }
    }
  }

  /** The timer runs only for a car with more than one image. */
  predicate AutoAdvances(car: Option<Catalog.Car>) {
    car.Some? && |car.value.images| > 1
  }

  /** Every catalog car's page runs the timer. */
  lemma CatalogPagesAutoAdvance(id: int)
    requires 1 <= id <= 14
    ensures AutoAdvances(CarForRoute(Some(id)))
  {
    Catalog.FindCarByIdExactly(id);
    Catalog.CatalogWellFormed();
  }

  /** An unknown id shows the not-found page and runs no timer. */
  lemma UnknownCarNoTimer(carId: Option<int>)
    requires carId.None? || !(1 <= carId.value <= 14)
    ensures CarForRoute(carId).None? && !AutoAdvances(CarForRoute(carId))
  {
    if carId.Some? {
      Catalog.FindCarByIdExactly(carId.value);
    }
  }
}
