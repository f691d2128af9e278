# Vehicle insurance rules

A model of the insurance-cost rules of a small vehicle domain. A vehicle has
a make, a model and a model year and is one of three kinds: a petrol car, a
diesel truck or an electric car. Each kind measures the vehicle's age as
2024 minus its model year and charges one of two fixed amounts, depending on
whether that age exceeds a threshold of its own:

| kind | older than | cost when older | cost otherwise |
|---|---|---|---|
| car | 5 years | 1000 | 500 |
| truck | 8 years | 1500 | 700 |
| electric car | 5 years | 2000 | 1000 |

An insurance calculator asks a vehicle for its own cost, whatever its kind.

The Dafny modules follow the program's files:

- `vehicle.dfy` (`Vehicles`): the vehicle as a datatype with one constructor
  per kind, the reference year 2024 and the age. The model year is an
  unbounded `int`, because the program never checks it; years after 2024
  give a negative age. `vehicle.py` is not part of this model: the three
  fields are those the demonstration program passes when it builds vehicles.
- `car.dfy` (`Cars`), `truck.dfy` (`Trucks`), `electric_car.dfy`
  (`ElectricCars`): each kind's cost rule, with its range, its cut-off
  model year, its monotonicity in the year and its independence from make
  and model.
- `insurance.dfy` (`Insurance`): the calculator, which dispatches on the
  kind the way the program's polymorphic call does, the relation between
  the electric-car and petrol-car rules, and the three sample vehicles of the
  demonstration program with their costs. `insurance_calculator.py` is not
  part of this model; the calculator is modelled from the calls that use it.

## Model

| member | source | states |
|---|---|---|
| Cars.InsuranceCost | solid-principles/car.py:5-7 | a car costs 500 or 1000; 1000 exactly when its model year is before 2019 (age over 5), 500 for every later year, including years after 2024 |
| Cars.CostNonIncreasing | solid-principles/car.py:6-7 | a car with a later model year never costs more than one with an earlier year |
| Cars.CostIgnoresMakeAndModel | solid-principles/car.py:5-7 | two cars of the same year cost the same, whatever their make and model |
| Cars.CostTiers | solid-principles/car.py:7 | the costs over all cars are exactly {500, 1000}: every cost is one of them and each is charged for some car |
| Trucks.InsuranceCost | solid-principles/truck.py:5-7 | a truck costs 700 or 1500; 1500 exactly when its model year is before 2016 (age over 8), 700 for every later year |
| Trucks.CostNonIncreasing | solid-principles/truck.py:6-7 | a truck with a later model year never costs more than one with an earlier year |
| Trucks.CostIgnoresMakeAndModel | solid-principles/truck.py:5-7 | two trucks of the same year cost the same, whatever their make and model |
| Trucks.CostTiers | solid-principles/truck.py:7 | the costs over all trucks are exactly {700, 1500}: every cost is one of them and each is charged for some truck |
| ElectricCars.InsuranceCost | solid-principles/electric_car.py:6-8 | an electric car costs 1000 or 2000; 2000 exactly when its model year is before 2019 (age over 5), 1000 for every later year |
| ElectricCars.CostNonIncreasing | solid-principles/electric_car.py:7-8 | an electric car with a later model year never costs more than one with an earlier year |
| ElectricCars.CostIgnoresMakeAndModel | solid-principles/electric_car.py:6-8 | two electric cars of the same year cost the same, whatever their make and model |
| ElectricCars.CostTiers | solid-principles/electric_car.py:8 | the costs over all electric cars are exactly {1000, 2000}: every cost is one of them and each is charged for some electric car |
| Insurance.CalculateVehicleInsurance | solid-principles/main.py:22-23 | the calculator returns the vehicle's own kind's cost unchanged, so every cost is one of 500, 700, 1000, 1500, 2000 |
| Insurance.CostNonIncreasingWithinKind | solid-principles/main.py:22-23 | among vehicles of one kind, the calculator never charges a newer vehicle more than an older one |
| Insurance.ElectricCarCostIsTwiceCarCost | solid-principles/electric_car.py:7-8 | for every model year, an electric car costs exactly twice what a petrol car of that year costs |
| Insurance.SampleCarCost | solid-principles/main.py:10 | the 2018 Toyota Camry is 6 years old and costs 1000 |
| Insurance.SampleTruckCost | solid-principles/main.py:11 | the 1980 Ford F-150 is 44 years old and costs 1500 |
| Insurance.SampleElectricCarCost | solid-principles/main.py:12 | the 2021 Tesla Model 3 is 3 years old and costs 1000 |

## Left out

- `refuel` and `recharge` (car.py, truck.py, electric_car.py): each only prints a fixed line; there is no state or result to model.
- The abstract capability bases `Fuelable`, `Rechargeable` and `MaintainenceTool`: they declare one method each and hold no behaviour; the closed variant datatype takes the place of the class hierarchy.
- `BrakeInspectionTool.perform_maintainence` and `MaintenanceService.service_vehicle`: console output and a one-line delegation to it.
- `ObjectFormatter.vehicle_to_json`: a wrapper over the host language's JSON library, whose escaping and spacing are library behaviour.
- The demonstration program's printing, including the 100 added to each cost only inside the printed text; only the sample vehicles it builds are modelled.
- The reference year is the literal 2024, as in the program; no clock is read.
