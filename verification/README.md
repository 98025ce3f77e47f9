# Trucks, storage and loads

A model of the `extra-lection` playground: a `Truck` with a fixed weight
capacity and a current weight, a `Storage` with the same two quantities, and
`Load`s, immutable name/weight pairs. A truck picks a load up only if it stays
within its capacity and drops a load off without any check. The storage takes
a load from a truck only if the storage stays within its capacity, and puts a
load in a truck only if the truck stays within its capacity. Every truck is
constructed against a registry of truck numbers; a number already in use is
refused with `valueAlreadyUsed`.

The project has one module per concern:

- `cargo.dfy` (`Cargo`): `Load`, the `Errors` enumeration and a `Result` type
  for the throwing constructor.
- `weights.dfy` (`Weights`): what each operation does to the current weights,
  as pure functions over `Side` (one container's current weight and capacity)
  and `Yard` (a truck and a storage). The same module runs sequences of calls
  and proves what holds across every run: transfers conserve the combined
  weight, and with non-negative load weights neither capacity bound is ever
  broken.
- `registration.dfy` (`Registration`): what a construction does to the set of
  used truck numbers, and what a sequence of constructions does.
- `trucks.dfy` (`Trucks`): the `Registry` and `Truck` classes and `NewTruck`,
  the throwing constructor.
- `storages.dfy` (`Storages`): the `Storage` class. Its two methods update the
  storage and the truck passed to them.
- `playground.dfy` (`Playground`): two clients. One constructs truck "0521"
  with capacity 10000 and shows a second construction with that number failing.
  The other moves a load there and back.

Each class method is specified by the pure function for its operation: its
`ensures` equates the new weight state with that function applied to the old
one. The properties of the operations are stated on those functions.

Some differences from the source, which does not compile as written:

- `Storage.storageName` is never initialised, so the model has no such field.
- The temporary `Load(loadWeight:)` built at lines 65 and 74 only carries the
  weight, so the model passes a load with the same name and weight.
- `putInWeight.loadName.loadWeight` at line 74 is read as
  `putInWeight.loadWeight`.
- The dictionary `usedNumbers` only ever stores `true`, so it is modelled as
  the set of its keys. It is an explicit `Registry` object passed to
  `NewTruck`, not a static variable.

The code does less than its documentation promises, and the model follows
the code:

- `pickUp` is documented to return false when the capacity would be exceeded
  (line 23), and `dropOff` to return false below zero and when the capacity is
  exceeded after unloading (lines 31 and 33). Neither returns anything: a
  rejected `pickUp` silently does nothing, and `dropOff` checks nothing at
  all, so an empty truck can go below zero (`Weights.DropOffGoesBelowZero`).
- `putInTruck` never checks the storage weight, so the storage can go negative
  (`Weights.PutInTruckDrainsStorageBelowZero`).
- Load weights are never validated. A negative weight dropped off into the
  storage raises the truck, and pushes a full truck over its capacity
  (`Weights.NegativeWeightOverfillsTruck`). For this reason the run-wide
  capacity lemmas assume non-negative weights.

## Model

| member | source | states |
|---|---|---|
| `Weights.AfterPickUp` | extra-lection.playground/Contents.swift:24-29 | a pick-up the capacity does not admit changes nothing; otherwise the weight rises by exactly the load's weight; the capacity bound is preserved and the capacity is unchanged |
| `Weights.AfterDropOff` | extra-lection.playground/Contents.swift:31-37 | the weight falls by exactly the load's weight, with no check; a non-negative load keeps the truck within capacity |
| `Weights.AfterDropOffToStorage` | extra-lection.playground/Contents.swift:62-67 | if the storage does not admit the weight, neither side changes; otherwise the truck falls and the storage rises by the weight; the combined weight is conserved, the storage bound is preserved and capacities are unchanged |
| `Weights.AfterPutInTruck` | extra-lection.playground/Contents.swift:71-77 | if the truck does not admit the weight, neither side changes; otherwise the pick-up always takes effect, so the truck rises and the storage falls by the weight; the combined weight is conserved, the truck bound is preserved and capacities are unchanged |
| `Weights.Step` | extra-lection.playground/Contents.swift:24-77 | no call changes a capacity |
| `Weights.Run` | extra-lection.playground/Contents.swift:24-77 | no sequence of calls changes a capacity |
| `Weights.PickUpThenDropOff` | extra-lection.playground/Contents.swift:24-37 | a pick-up that succeeded, followed by a drop-off of the same weight, restores the truck |
| `Weights.DropOffToStorageThenPutInTruck` | extra-lection.playground/Contents.swift:62-77 | a drop-off into the storage that succeeded, followed by putting the same weight back in a truck that was within capacity, restores both sides |
| `Weights.TransfersConserveTotal` | extra-lection.playground/Contents.swift:62-77 | any sequence of transfers keeps the combined truck and storage weight |
| `Weights.RunKeepsTruckWithin` | extra-lection.playground/Contents.swift:24-77 | with non-negative load weights, no sequence of calls takes a truck within capacity over it |
| `Weights.RunKeepsStorageWithin` | extra-lection.playground/Contents.swift:24-77 | with non-negative load weights, no sequence of calls takes a storage within capacity over it |
| `Weights.DropOffGoesBelowZero` | extra-lection.playground/Contents.swift:31-37 | a truck dropping off more than it holds ends with a negative weight, contrary to the doc comment |
| `Weights.PutInTruckDrainsStorageBelowZero` | extra-lection.playground/Contents.swift:71-77 | whenever the truck admits a weight larger than the storage holds, the storage ends with a negative weight |
| `Weights.NegativeWeightOverfillsTruck` | extra-lection.playground/Contents.swift:62-67 | a negative load weight the storage admits raises the truck, and takes a full truck over its capacity |
| `Registration.Register` | extra-lection.playground/Contents.swift:11-16 | a number in use is refused with `valueAlreadyUsed`; otherwise the registry grows by exactly that number |
| `Registration.RegistryAfter` | extra-lection.playground/Contents.swift:11-16 | after a construction, successful or not, the number is in the registry and nothing else was added or removed |
| `Registration.Admitted` | extra-lection.playground/Contents.swift:11-16 | a sequence of constructions has one verdict per construction |
| `Registration.Registered` | extra-lection.playground/Contents.swift:11-16 | after a sequence of constructions the registry holds exactly the initial numbers and the numbers constructed |
| `Registration.RegistryOnlyGrows` | extra-lection.playground/Contents.swift:12-16 | the registry only grows |
| `Registration.AdmittedIffUnused` | extra-lection.playground/Contents.swift:12-16 | a construction succeeds if and only if its number was neither in the initial registry nor used by an earlier construction |
| `Registration.LaterReuseFails` | extra-lection.playground/Contents.swift:12-16 | once a number has been used, every later construction with that number fails |
| `Trucks.Registry.constructor` | extra-lection.playground/Contents.swift:40 | the registry starts empty |
| `Trucks.Truck.constructor` | extra-lection.playground/Contents.swift:16-19 | requires the number to be unused; records it in the registry, takes capacity and number from the arguments, and starts the current weight at 0 |
| `Trucks.Truck.PickUp` | extra-lection.playground/Contents.swift:24-29 | the truck's new weight state is `AfterPickUp` of the old one; only `currentWeight` may change |
| `Trucks.Truck.DropOff` | extra-lection.playground/Contents.swift:34-37 | the truck's new weight state is `AfterDropOff` of the old one; only `currentWeight` may change |
| `Trucks.NewTruck` | extra-lection.playground/Contents.swift:11-19 | a number in the registry fails with `ValueAlreadyUsed` and leaves the registry unchanged; otherwise the number is registered and a fresh truck with the given capacity and number and weight 0 is returned |
| `Storages.Storage.constructor` | extra-lection.playground/Contents.swift:55-57 | the capacity comes from the argument and the current weight starts at 0 |
| `Storages.Storage.DropOffToStorage` | extra-lection.playground/Contents.swift:62-67 | the truck and storage weights after the call are `AfterDropOffToStorage` of those before; only the two current weights may change |
| `Storages.Storage.PutInTruck` | extra-lection.playground/Contents.swift:71-77 | the truck and storage weights after the call are `AfterPutInTruck` of those before; only the two current weights may change |
| `Playground.Renault0521` | extra-lection.playground/Contents.swift:101 | constructing truck "0521" succeeds with weight 0; a second "0521" fails with `ValueAlreadyUsed` |
| `Playground.ThereAndBack` | extra-lection.playground/Contents.swift:62-77 | a pick-up, a drop-off into the storage and a put-in-truck of the same load leave the truck holding the load and the storage empty |

## Left out

- Swift's `Int` is 64 bits wide and traps on overflow; the model uses unbounded integers, so it does not capture a crash on overflow.
- `Storage.storageName` is declared but never initialised; it carries no behaviour and is not modelled.
- `usedNumbers` is a process-wide static dictionary in the source; here it is a `Registry` object that the caller passes in, so the model does not capture sharing through global state.
- `Weights.RunKeepsTruckWithin`: assumes non-negative load weights, because the code does not validate weights and a negative one breaks the bound.
- `Weights.RunKeepsStorageWithin`: assumes non-negative load weights, for the same reason.
- Load identifiers, sets of held loads, rejection of non-positive weights and boolean results: the source has none of them, so neither does the model.
- Swift's `private(set)` on `currentWeight`, `currentStorageWeight` and `usedNumbers` is not enforced: Dafny fields are public, so a client could assign `currentWeight`, `currentStorageWeight` or `registry.used` directly. The model's own methods change them only as the source does.
