/** The static car catalog: seven electric and seven combustion cars, the
    combined list, lookup by id, and the range-based electric/mechanical
    discriminator. Descriptions and feature lists are text only and are not
    carried. */
module Catalog {
  import opened Base
  import Seqs

  /** A catalog entry. Electric entries carry `range` and
      `batteryCapacity`; mechanical ones carry `engineType` and
      `horsepower`. Image entries are asset names. */
  datatype Car = Car(
    id: int,
    make: string,
    model: string,
    year: int,
    range: Option<string>,
    images: seq<string>,
    pricePerDay: int,
    seatingCapacity: int,
    batteryCapacity: Option<string>,
    engineType: Option<string>,
    horsepower: Option<int>)

  function Electric(id: int, make: string, model: string, range: string, images: seq<string>,
                    pricePerDay: int, battery: string): Car {
    Car(id, make, model, 2023, Some(range), images, pricePerDay, 5, Some(battery), None, None)
  }

  function Mechanical(id: int, make: string, model: string, images: seq<string>,
                      pricePerDay: int, engine: string, horsepower: int): Car {
    Car(id, make, model, 2023, None, images, pricePerDay, 5, None, Some(engine), Some(horsepower))
  }

  /** The type guard `isElectricCar`: a car is electric when its `range`
      is defined. The car-details and checkout pages use the same test. */
  predicate IsElectricCar(car: Car) {
    car.range.Some?
  }

  const ElectricCars: seq<Car> := [
    Electric(1, "Tesla", "Model 3", "358 miles", ["tesla1", "tesla2", "tesla3"], 79, "75 kWh"),
    Electric(2, "Nissan", "Leaf", "226 miles", ["nissanleaf1", "nissanleaf2", "nissanleaf3"], 55, "62 kWh"),
    Electric(3, "Chevrolet", "Bolt EV", "259 miles", ["chevy1", "chevy2", "chevy3"], 59, "66 kWh"),
    Electric(4, "Ford", "Mustang Mach-E", "305 miles", ["fordE1", "fordE2", "fordE3"], 89, "75.7 kWh"),
    Electric(5, "Volkswagen", "ID.4", "250 miles", ["wagon1", "wagon2", "wagon3"], 77, "77 kWh"),
    Electric(6, "Hyundai", "Kona Electric", "258 miles", ["hyundai1", "hyundai2", "hyundai3"], 65, "64 kWh"),
    Electric(7, "Kia", "EV6", "310 miles", ["kia1", "kia2", "kia3"], 85, "77.4 kWh")
  ]

  const MechanicalCars: seq<Car> := [
    Mechanical(8, "Toyota", "Corolla", ["corolla1", "corolla2", "corolla3"], 45, "1.8L 4-cylinder", 139),
    Mechanical(9, "Honda", "Civic", ["honda1", "honda2", "honda3"], 50, "2.0L 4-cylinder", 158),
    Mechanical(10, "Ford", "Escape", ["ford1", "ford2", "ford3"], 55, "1.5L EcoBoost", 181),
    Mechanical(11, "Chevrolet", "Malibu", ["malibu1", "malibu2", "malibu3"], 52, "1.5L Turbocharged 4-cylinder", 160),
    Mechanical(12, "Hyundai", "Elantra", ["elentra1", "elentra2", "elentra3"], 49, "2.0L 4-cylinder", 147),
    Mechanical(13, "Nissan", "Altima", ["altima1", "altima2", "altima3"], 54, "2.5L 4-cylinder", 188),
    Mechanical(14, "Mazda", "CX-5", ["mazda1", "mazda2", "mazda3"], 68, "2.5L 4-cylinder", 187)
  ]

  /** Electric cars followed by mechanical cars. */
  const AllCars: seq<Car> := ElectricCars + MechanicalCars

  /** The first catalog car with the given id. */
  function FindCarById(id: int): (r: Option<Car>)
    ensures r.Some? ==> r.value in AllCars && r.value.id == id
    ensures r.None? <==> forall k :: 0 <= k < |AllCars| ==> AllCars[k].id != id
  {
    Seqs.Find(AllCars, (c: Car) => c.id == id)
  }

  /** The catalog lists the fourteen cars in order: electric ids 1-7, then
      mechanical ids 8-14. */
  lemma CatalogIds()
    ensures |ElectricCars| == 7 && |MechanicalCars| == 7 && |AllCars| == 14
    ensures forall k :: 0 <= k < 14 ==> AllCars[k].id == k + 1
    ensures forall k :: 0 <= k < 7 ==> AllCars[k] == ElectricCars[k]
    ensures forall k :: 7 <= k < 14 ==> AllCars[k] == MechanicalCars[k - 7]
  {
  }

  /** Ids are pairwise distinct, so a lookup never has to choose. */
  lemma IdsDistinct()
    ensures forall j, k :: 0 <= j < k < |AllCars| ==> AllCars[j].id != AllCars[k].id
  {
    CatalogIds();
  }

  /** Lookup finds a car exactly for the ids 1 to 14, and it is the one at
      position id - 1. */
  lemma FindCarByIdExactly(id: int)
    ensures FindCarById(id).Some? <==> 1 <= id <= 14
    ensures 1 <= id <= 14 ==> FindCarById(id) == Some(AllCars[id - 1])
  {
    CatalogIds();
    if 1 <= id <= 14 {
      var r := FindCarById(id);
      assert AllCars[id - 1].id == id;
      assert r.Some?;
      var k :| 0 <= k < |AllCars| && AllCars[k] == r.value;
      assert k == id - 1;
    }
  }

  /** Every car has a positive daily price and more than one image. */
  lemma CatalogWellFormed()
    ensures forall k :: 0 <= k < |AllCars| ==> AllCars[k].pricePerDay > 0
    ensures forall k :: 0 <= k < |AllCars| ==> |AllCars[k].images| == 3
  {
    CatalogIds();
  }

  /** The range-based discriminator classifies every catalog car
      correctly: electric entries have a range and no engine, mechanical
      ones the reverse. */
  lemma DiscriminatorClassifiesCatalog()
    ensures forall k :: 0 <= k < |ElectricCars| ==>
              IsElectricCar(ElectricCars[k]) && ElectricCars[k].engineType.None?
    ensures forall k :: 0 <= k < |MechanicalCars| ==>
              !IsElectricCar(MechanicalCars[k]) && MechanicalCars[k].engineType.Some?
  {
  }
}
