/** Clients of the model: the playground's one truck, and what the class
    contracts let a caller conclude about a sequence of calls. */
module Playground {
  import opened Cargo
  import opened Weights
  import opened Trucks
  import opened Storages

  /** The playground constructs truck "0521" with capacity 10000; a second
      truck with that number is refused. */
  method Renault0521() returns (made: Result<Truck>, again: Result<Truck>)
    ensures made.Ok? && made.value.currentWeight == 0
    ensures made.Ok? ==> made.value.weightCapacity == 10000 && made.value.truckNumber == "0521"
    ensures again == Err(ValueAlreadyUsed)
  {
    var registry := new Registry();
    made := NewTruck(registry, 10000, "0521");
    again := NewTruck(registry, 8000, "0521");
  }

  /** A truck picks a load up, drops it off into the storage and takes it
      back: the storage ends where it started and the truck holds the load. */
  method ThereAndBack(truck: Truck, storage: Storage, load: Load)
    requires truck.currentWeight == 0 && storage.currentStorageWeight == 0
    requires 0 <= load.loadWeight <= truck.weightCapacity
    requires load.loadWeight <= storage.storageCapacity
    modifies truck, storage
    ensures truck.currentWeight == load.loadWeight && storage.currentStorageWeight == 0
  {
    truck.PickUp(load);
    assert truck.currentWeight == load.loadWeight;
    storage.DropOffToStorage(load, truck);
    assert truck.currentWeight == 0 && storage.currentStorageWeight == load.loadWeight;
    storage.PutInTruck(load, truck);
  }
}
