/** The weight bookkeeping of trucks and storages as pure functions: what each
    operation of the playground does to the current weight of the containers it
    touches. The classes in `Trucks` and `Storages` are specified by these
    functions; the lemmas here state what holds across whole runs of calls. */
module Weights {
  import opened Cargo

  /** The weight state of one container (a truck or a storage): how much it
      currently holds and its fixed capacity. */
  datatype Side = Side(current: int, capacity: int)

  /** One truck and one storage, the two parties of a transfer. */
  datatype Yard = Yard(truck: Side, storage: Side)

  /** The guard every receiving side checks: adding `w` stays within capacity. */
  predicate Admits(s: Side, w: int) {
    s.current + w <= s.capacity
  }

  /** The capacity bound. */
  predicate Within(s: Side) {
    s.current <= s.capacity
  }

  /** The weight held by the truck and the storage together. */
  function Total(y: Yard): int {
    y.truck.current + y.storage.current
  }

  /** `Truck.pickUp`: add the weight only if the truck stays within capacity. */
  function AfterPickUp(t: Side, w: int): (r: Side)
    ensures r.capacity == t.capacity
    ensures !Admits(t, w) ==> r == t
    ensures Admits(t, w) ==> r.current == t.current + w
    ensures Within(t) ==> Within(r)
    ensures Admits(t, w) ==> Within(r)
  {
    if Admits(t, w) then t.(current := t.current + w) else t
  }

  /** `Truck.dropOff`: subtract the weight, unconditionally. */
  function AfterDropOff(t: Side, w: int): (r: Side)
    ensures r.capacity == t.capacity
    ensures r.current + w == t.current
    ensures 0 <= w && Within(t) ==> Within(r)
  {
    t.(current := t.current - w)
  }

  /** `Storage.dropOffToStorage`: if the storage admits the weight, the truck
      drops it off and the storage takes it; otherwise nothing changes. */
  function AfterDropOffToStorage(y: Yard, w: int): (r: Yard)
    ensures r.truck.capacity == y.truck.capacity && r.storage.capacity == y.storage.capacity
    ensures !Admits(y.storage, w) ==> r == y
    ensures Admits(y.storage, w) ==>
      r.truck.current == y.truck.current - w && r.storage.current == y.storage.current + w
    ensures Total(r) == Total(y)
    ensures Within(y.storage) ==> Within(r.storage)
    ensures 0 <= w && Within(y.truck) ==> Within(r.truck)
  {
    if Admits(y.storage, w) then
      Yard(AfterDropOff(y.truck, w), y.storage.(current := y.storage.current + w))
    else
      y
  }

  /** `Storage.putInTruck`: if the truck admits the weight, the truck picks it
      up and the storage gives it away; otherwise nothing changes. The guard is
      the one `pickUp` checks, so the pick-up always takes effect. */
  function AfterPutInTruck(y: Yard, w: int): (r: Yard)
    ensures r.truck.capacity == y.truck.capacity && r.storage.capacity == y.storage.capacity
    ensures !Admits(y.truck, w) ==> r == y
    ensures Admits(y.truck, w) ==>
      r.truck.current == y.truck.current + w && r.storage.current == y.storage.current - w
    ensures Total(r) == Total(y)
    ensures Within(y.truck) ==> Within(r.truck)
    ensures 0 <= w && Within(y.storage) ==> Within(r.storage)
  {
    if Admits(y.truck, w) then
      Yard(AfterPickUp(y.truck, w), y.storage.(current := y.storage.current - w))
    else
      y
  }

  /** A call on one truck and one storage. */
  datatype Op =
    | PickUp(load: Load)
    | DropOff(load: Load)
    | DropOffToStorage(load: Load)
    | PutInTruck(load: Load)

  /** A call that moves weight between the truck and the storage. */
  predicate IsTransfer(op: Op) {
    op.DropOffToStorage? || op.PutInTruck?
  }

  function Step(y: Yard, op: Op): (r: Yard)
    ensures r.truck.capacity == y.truck.capacity && r.storage.capacity == y.storage.capacity
  {
    match op
    case PickUp(l) => y.(truck := AfterPickUp(y.truck, l.loadWeight))
    case DropOff(l) => y.(truck := AfterDropOff(y.truck, l.loadWeight))
    case DropOffToStorage(l) => AfterDropOffToStorage(y, l.loadWeight)
    case PutInTruck(l) => AfterPutInTruck(y, l.loadWeight)
  }

  /** The state after a sequence of calls, made one after the other. */
  function Run(y: Yard, ops: seq<Op>): (r: Yard)
    ensures r.truck.capacity == y.truck.capacity && r.storage.capacity == y.storage.capacity
    decreases |ops|
  {
    if ops == [] then y else Run(Step(y, ops[0]), ops[1..])
  }

  /** A successful pick-up followed by a drop-off of the same weight restores
      the truck. */
  lemma PickUpThenDropOff(t: Side, w: int)
    requires Admits(t, w)
    ensures AfterDropOff(AfterPickUp(t, w), w) == t
  {
  }

  /** A drop-off into the storage followed by putting the same weight back in
      the truck restores both sides, as long as the truck was within capacity. */
  lemma DropOffToStorageThenPutInTruck(y: Yard, w: int)
    requires Within(y.truck) && Admits(y.storage, w)
    ensures AfterPutInTruck(AfterDropOffToStorage(y, w), w) == y
  {
  }

  /** Transfers only move weight: any run of transfers keeps the total. */
  lemma {:induction false} TransfersConserveTotal(y: Yard, ops: seq<Op>)
    requires forall i :: 0 <= i < |ops| ==> IsTransfer(ops[i])
    ensures Total(Run(y, ops)) == Total(y)
    decreases |ops|
  {
    if ops != [] {
      TransfersConserveTotal(Step(y, ops[0]), ops[1..]);
    }
  }

  /** With loads of non-negative weight, no run of calls takes a truck that
      is within capacity over it. */
  lemma {:induction false} RunKeepsTruckWithin(y: Yard, ops: seq<Op>)
    requires Within(y.truck)
    requires forall i :: 0 <= i < |ops| ==> 0 <= ops[i].load.loadWeight
    ensures Within(Run(y, ops).truck)
    decreases |ops|
  {
    if ops != [] {
      RunKeepsTruckWithin(Step(y, ops[0]), ops[1..]);
    }
  }

  /** With loads of non-negative weight, no run of calls takes a storage that
      is within capacity over it. */
  lemma {:induction false} RunKeepsStorageWithin(y: Yard, ops: seq<Op>)
    requires Within(y.storage)
    requires forall i :: 0 <= i < |ops| ==> 0 <= ops[i].load.loadWeight
    ensures Within(Run(y, ops).storage)
    decreases |ops|
  {
    if ops != [] {
      RunKeepsStorageWithin(Step(y, ops[0]), ops[1..]);
    }
  }

  /** `dropOff` does not stop at zero: a truck dropping off more than it
      holds ends with a negative weight. */
  lemma DropOffGoesBelowZero(t: Side, w: int)
    requires t.current < w
    ensures AfterDropOff(t, w).current < 0
  {
  }

  /** `putInTruck` does not check the storage: whenever the truck admits a
      weight larger than the storage holds, the storage ends negative. */
  lemma PutInTruckDrainsStorageBelowZero(y: Yard, w: int)
    requires Admits(y.truck, w) && y.storage.current < w
    ensures AfterPutInTruck(y, w).storage.current < 0
  {
  }

  /** Load weights are not validated: whenever the storage admits a negative
      weight, dropping it off raises the truck, and a full truck ends over
      its capacity. */
  lemma NegativeWeightOverfillsTruck(y: Yard, w: int)
    requires w < 0 && Admits(y.storage, w)
    ensures AfterDropOffToStorage(y, w).truck.current > y.truck.current
    ensures y.truck.current == y.truck.capacity ==> !Within(AfterDropOffToStorage(y, w).truck)
  {
  }
}
