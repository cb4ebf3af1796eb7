/** Failure-carrying datatypes shared by every component. */
module Base {

  datatype Option<+T> = None | Some(value: T)

  /** The error kinds of the manager's error type that the modelled code can return. */
  datatype Error =
    | InvalidParameters
    | InvalidState
    | StorageError
    | BlockchainError
    | WalletError

  datatype Result<+T> = Ok(value: T) | Err(error: Error)

  type Byte = b: int | 0 <= b < 256

  function Pow(base: nat, e: nat): (r: nat)
    ensures base > 0 ==> r > 0
  {
    if e == 0 then 1 else base * Pow(base, e - 1)
  }
}
