/** Insurance rule of a rechargeable electric car. */
module ElectricCars {
  import opened Vehicles

  /**
    An electric car more than five years old costs 2000 to insure, any other
    one 1000. In calendar terms the higher amount applies to model years up to
    2018.
   */
  function InsuranceCost(car: Vehicle): (cost: int)
    requires car.ElectricCar?
    ensures cost == 1000 || cost == 2000
    ensures cost == 2000 <==> car.year < 2019
    ensures cost == 1000 <==> car.year >= 2019
  {
    if Age(car.year) > 5 then 2000 else 1000
  }

  /** A newer electric car never costs more to insure than an older one. */
  lemma CostNonIncreasing(older: Vehicle, newer: Vehicle)
    requires older.ElectricCar? && newer.ElectricCar?
    requires older.year <= newer.year
    ensures InsuranceCost(newer) <= InsuranceCost(older)
  {
  }

  /** The cost depends on the model year alone, never on make or model. */
  lemma CostIgnoresMakeAndModel(a: Vehicle, b: Vehicle)
    requires a.ElectricCar? && b.ElectricCar?
    requires a.year == b.year
    ensures InsuranceCost(a) == InsuranceCost(b)
  {
  }

  /** The costs charged over all electric cars are exactly the two amounts 1000 and 2000. */
  lemma CostTiers()
    ensures (iset car: Vehicle | car.ElectricCar? :: InsuranceCost(car)) == iset{1000, 2000}
  {
    var older, newer := ElectricCar("", "", 2018), ElectricCar("", "", 2019);
    assert InsuranceCost(older) == 2000;
    assert InsuranceCost(newer) == 1000;
  }
}
