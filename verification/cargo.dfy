/** Values shared by the truck and storage model: loads, the error the
    truck constructor throws, and a result type for operations that can fail. */
module Cargo {

  /** A load: an immutable name/weight pair. Only the weight takes part in
      any operation; the name is carried along unchanged. */
  datatype Load = Load(loadName: string, loadWeight: int)

  /** The errors a truck constructor can throw. */
  datatype Errors = ValueAlreadyUsed

  /** The outcome of an operation that either yields a value or throws. */
  datatype Result<T> = Ok(value: T) | Err(error: Errors)
}
