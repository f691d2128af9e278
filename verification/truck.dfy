/** Insurance rule of a diesel truck. */
module Trucks {
  import opened Vehicles

  /**
    A truck more than eight years old costs 1500 to insure, any other truck
    700. In calendar terms the higher amount applies to model years up to 2015.
   */
  function InsuranceCost(truck: Vehicle): (cost: int)
    requires truck.Truck?
    ensures cost == 700 || cost == 1500
    ensures cost == 1500 <==> truck.year < 2016
    ensures cost == 700 <==> truck.year >= 2016
  {
    if Age(truck.year) > 8 then 1500 else 700
  }

  /** A newer truck never costs more to insure than an older one. */
  lemma CostNonIncreasing(older: Vehicle, newer: Vehicle)
    requires older.Truck? && newer.Truck?
    requires older.year <= newer.year
    ensures InsuranceCost(newer) <= InsuranceCost(older)
  {
  }

  /** The cost depends on the model year alone, never on make or model. */
  lemma CostIgnoresMakeAndModel(a: Vehicle, b: Vehicle)
    requires a.Truck? && b.Truck?
    requires a.year == b.year
    ensures InsuranceCost(a) == InsuranceCost(b)
  {
  }

  /** The costs charged over all trucks are exactly the two amounts 700 and 1500. */
  lemma CostTiers()
    ensures (iset truck: Vehicle | truck.Truck? :: InsuranceCost(truck)) == iset{700, 1500}
  {
    var older, newer := Truck("", "", 2015), Truck("", "", 2016);
    assert InsuranceCost(older) == 1500;
    assert InsuranceCost(newer) == 700;
  }
}
