/** The storage, which takes loads from a truck and puts loads in a truck. */
module Storages {
  import opened Cargo
  import opened Weights
  import opened Trucks

  /** A storage: a fixed capacity and a current weight that the two transfer
      methods change, together with the weight of the truck involved. */
  class Storage {
    const storageCapacity: int
    var currentStorageWeight: int

    /** The storage's weight state. */
    function State(): Side
      reads this
    {
      Side(currentStorageWeight, storageCapacity)
    }

    /** The weight state of this storage together with `truck`. */
    function With(truck: Truck): Yard
      reads this, truck
    {
      Yard(truck.State(), State())
    }

    constructor (maxStorageCapacity: int)
      ensures storageCapacity == maxStorageCapacity && currentStorageWeight == 0
    {
      storageCapacity := maxStorageCapacity;
      currentStorageWeight := 0;
    }

    /** Unloads `dropLoad` from `truck` into this storage, unless that would
      exceed the storage's capacity. Only the two current weights change. */
    method DropOffToStorage(dropLoad: Load, truck: Truck)
      modifies this`currentStorageWeight, truck`currentWeight
      ensures With(truck) == AfterDropOffToStorage(old(With(truck)), dropLoad.loadWeight)
    {
      if currentStorageWeight + dropLoad.loadWeight > storageCapacity {
        return;
      }
      truck.DropOff(Load(dropLoad.loadName, dropLoad.loadWeight));
      currentStorageWeight := currentStorageWeight + dropLoad.loadWeight;
    }

    /** Loads `putInWeight` from this storage onto `truck`, unless that would
      exceed the truck's capacity. Only the two current weights change. */
    method PutInTruck(putInWeight: Load, truck: Truck)
      modifies this`currentStorageWeight, truck`currentWeight
      ensures With(truck) == AfterPutInTruck(old(With(truck)), putInWeight.loadWeight)
    {
      if truck.currentWeight + putInWeight.loadWeight > truck.weightCapacity {
        return;
      }
      truck.PickUp(Load(putInWeight.loadName, putInWeight.loadWeight));
      currentStorageWeight := currentStorageWeight - putInWeight.loadWeight;
    }
  }
}
