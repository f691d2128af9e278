/**
  The insurance calculator: it asks a vehicle for its own insurance cost,
  whatever its kind, and adds nothing of its own. Also the three sample
  vehicles the demonstration program builds, and what they cost.
 */
module Insurance {
  import opened Vehicles
  import Cars
  import Trucks
  import ElectricCars

  /**
    The cost of insuring any vehicle: the rule of the vehicle's own kind,
    returned unchanged. Whatever the kind, the cost is one of five amounts.
   */
  function CalculateVehicleInsurance(v: Vehicle): (cost: int)
    ensures v.Car? ==> cost == Cars.InsuranceCost(v)
    ensures v.Truck? ==> cost == Trucks.InsuranceCost(v)
    ensures v.ElectricCar? ==> cost == ElectricCars.InsuranceCost(v)
    ensures cost in {500, 700, 1000, 1500, 2000}
  {
    match v
    case Car(_, _, _) => Cars.InsuranceCost(v)
    case Truck(_, _, _) => Trucks.InsuranceCost(v)
    case ElectricCar(_, _, _) => ElectricCars.InsuranceCost(v)
  }

  /** Within one kind, a newer vehicle never costs more to insure than an older one. */
  lemma CostNonIncreasingWithinKind(older: Vehicle, newer: Vehicle)
    requires older.Car? == newer.Car? && older.Truck? == newer.Truck?
    requires older.year <= newer.year
    ensures CalculateVehicleInsurance(newer) <= CalculateVehicleInsurance(older)
  {
  }

  /**
    Electric cars and petrol cars share the five-year threshold, and every
    electric-car amount is twice the petrol-car amount: for any model year,
    an electric car costs exactly twice what a car of that year costs.
   */
  lemma ElectricCarCostIsTwiceCarCost(electric: Vehicle, petrol: Vehicle)
    requires electric.ElectricCar? && petrol.Car?
    requires electric.year == petrol.year
    ensures ElectricCars.InsuranceCost(electric) == 2 * Cars.InsuranceCost(petrol)
  {
  }

  /** The sample car: a 2018 Toyota Camry. */
  const SampleCar: Vehicle := Car("Toyota", "Camry", 2018)

  /** The sample truck: a 1980 Ford F-150. */
  const SampleTruck: Vehicle := Truck("Ford", "F-150", 1980)

  /** The sample electric car: a 2021 Tesla Model 3. */
  const SampleElectricCar: Vehicle := ElectricCar("Tesla", "Model 3", 2021)

  /** The Camry is six years old, past the car threshold, and costs 1000. */
  lemma SampleCarCost()
    ensures Age(SampleCar.year) == 6
    ensures CalculateVehicleInsurance(SampleCar) == 1000
  {
  }

  /** The F-150 is 44 years old, past the truck threshold, and costs 1500. */
  lemma SampleTruckCost()
    ensures Age(SampleTruck.year) == 44
    ensures CalculateVehicleInsurance(SampleTruck) == 1500
  {
  }

  /** The Model 3 is three years old, within the threshold, and costs 1000. */
  lemma SampleElectricCarCost()
    ensures Age(SampleElectricCar.year) == 3
    ensures CalculateVehicleInsurance(SampleElectricCar) == 1000
  {
  }
}
