/**
  The vehicle entity and its closed set of concrete variants.

  Every vehicle carries a make, a model and a model year, fixed when it is
  built. The three constructors are the concrete vehicle kinds; the insurance
  rule of each kind lives in its own module (Cars, Trucks, ElectricCars).
 */
module Vehicles {

  /** The calendar year against which every vehicle's age is measured. */
  const ReferenceYear: int := 2024

  /**
    A vehicle of one of the three kinds. The year is an unbounded integer:
    nothing checks that it is a plausible calendar year, and a year after
    the reference year is accepted (its age is then negative).
   */
  datatype Vehicle =
    | Car(make: string, model: string, year: int)
    | Truck(make: string, model: string, year: int)
    | ElectricCar(make: string, model: string, year: int)

  /** Age of a vehicle of the given model year, in whole years. */
  function Age(year: int): int
  {
    ReferenceYear - year
  }
}
