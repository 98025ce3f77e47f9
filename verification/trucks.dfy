/** Trucks and the registry of truck numbers they are constructed against. */
module Trucks {
  import opened Cargo
  import opened Weights
  import Registration

  /** The set of truck numbers already in use. The numbers of every truck
      constructed against this registry are recorded here. */
  class Registry {
    var used: set<string>

    constructor ()
      ensures used == {}
    {
      used := {};
    }
  }

  /** A truck: a fixed capacity and number, and a current weight that
      `PickUp` and `DropOff` change. */
  class Truck {
    const weightCapacity: int
    const truckNumber: string
    var currentWeight: int

    /** The truck's weight state. */
    function State(): Side
      reads this
    {
      Side(currentWeight, weightCapacity)
    }

    /** The non-throwing path of the truck constructor: the number is not
        in use, so it is recorded in the registry and the fields are set.
        `NewTruck` performs the check and calls this. */
    constructor (registry: Registry, maxWeightCapacity: int, truckNumber: string)
      requires truckNumber !in registry.used
      modifies registry
      ensures registry.used == old(registry.used) + {truckNumber}
      ensures weightCapacity == maxWeightCapacity && this.truckNumber == truckNumber
      ensures currentWeight == 0
    {
      registry.used := registry.used + {truckNumber};
      weightCapacity := maxWeightCapacity;
      this.truckNumber := truckNumber;
      currentWeight := 0;
    }

    /** Adds the load's weight, unless that would exceed the capacity. */
    method PickUp(weight: Load)
      modifies this`currentWeight
      ensures State() == AfterPickUp(old(State()), weight.loadWeight)
    {
      if currentWeight + weight.loadWeight > weightCapacity {
        return;
      }
      currentWeight := currentWeight + weight.loadWeight;
    }

    /** Subtracts the load's weight, with no check. */
    method DropOff(weight: Load)
      modifies this`currentWeight
      ensures State() == AfterDropOff(old(State()), weight.loadWeight)
    {
      currentWeight := currentWeight - weight.loadWeight;
    }
  }

  /** Constructs a truck: a number already in the registry is refused with
      `ValueAlreadyUsed` and nothing changes; otherwise the number is recorded
      and a fresh, empty truck is returned. */
  method NewTruck(registry: Registry, maxWeightCapacity: int, truckNumber: string)
    returns (r: Result<Truck>)
    modifies registry
    ensures registry.used == Registration.RegistryAfter(old(registry.used), truckNumber)
    ensures r.Err? <==> Registration.Register(old(registry.used), truckNumber).Err?
    ensures r.Err? ==> r.error == ValueAlreadyUsed && registry.used == old(registry.used)
    ensures r.Ok? ==> fresh(r.value) && r.value.currentWeight == 0
    ensures r.Ok? ==> r.value.weightCapacity == maxWeightCapacity && r.value.truckNumber == truckNumber
  {
    if truckNumber in registry.used {
      return Err(ValueAlreadyUsed);
    }
    var truck := new Truck(registry, maxWeightCapacity, truckNumber);
    r := Ok(truck);
  }
}
