/** Insurance rule of a petrol car. */
module Cars {
  import opened Vehicles

  /**
    A car more than five years old costs 1000 to insure, any other car 500.
    In calendar terms the higher amount applies to model years up to 2018.
   */
  function InsuranceCost(car: Vehicle): (cost: int)
    requires car.Car?
    ensures cost == 500 || cost == 1000
    ensures cost == 1000 <==> car.year < 2019
    ensures cost == 500 <==> car.year >= 2019
  {
    if Age(car.year) > 5 then 1000 else 500
  }

  /** A newer car never costs more to insure than an older one. */
  lemma CostNonIncreasing(older: Vehicle, newer: Vehicle)
    requires older.Car? && newer.Car?
    requires older.year <= newer.year
    ensures InsuranceCost(newer) <= InsuranceCost(older)
  {
  }

  /** The cost depends on the model year alone, never on make or model. */
  lemma CostIgnoresMakeAndModel(a: Vehicle, b: Vehicle)
    requires a.Car? && b.Car?
    requires a.year == b.year
    ensures InsuranceCost(a) == InsuranceCost(b)
  {
  }

  /** The costs charged over all cars are exactly the two amounts 500 and 1000. */
  lemma CostTiers()
    ensures (iset car: Vehicle | car.Car? :: InsuranceCost(car)) == iset{500, 1000}
  {
    var older, newer := Car("", "", 2018), Car("", "", 2019);
    assert InsuranceCost(older) == 1000;
    assert InsuranceCost(newer) == 500;
  }
}
