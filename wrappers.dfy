/** Option, Result and the error kinds the crate reports (one `anyhow` error per kind). */
module Wrappers {

  datatype Option<+T> = None | Some(value: T) {
    function GetOr(default: T): T {
      match this
      case Some(v) => v
      case None => default
    }
  }

  /** Why an operation failed; each constructor is one of the crate's error messages. */
  datatype Error =
    // bn254.rs
    | FieldLength(got: nat)
    // tx.rs
    | SignerKeyMismatch
    | RecipientKeyMismatch
    | MergeSignerMismatch(input: nat)
    | MergeSignersDiffer
    | MergeRecipientKeyMismatch
    | DuplicateTransferSlot
    | TransferTokenMissing
    | InsufficientForTransferAndFee
    | InsufficientForTransfer
    | InsufficientForFee
    | SaltStreamExhausted
    | ProofRejected
    // prover.rs
    | MissingInput(param: string)
    | WrongLength(param: string, expected: nat, got: nat)
    | NestedArray(param: string)
    | ArrayOfStructs(param: string)
    | PublicInputsLength(got: nat)
    | TooManyInputs
    | CircuitNotInitialized
    | MissingAfterRegeneration(name: string)
    | KeyIdChanged(name: string)
    | VkBytesMissing(id: string)
    | UnknownVkId(id: string)
    // catalog.rs
    | AbiParse(name: string)
    // failures reported by the proving backend or by a caller-supplied oracle
    | Backend(code: nat)

  datatype Result<+T> = Ok(value: T) | Err(error: Error) {
    predicate IsFailure() { Err? }
    function PropagateFailure<U>(): Result<U>
      requires Err?
    {
      Err(error)
    }
    function Extract(): T
      requires Ok?
    {
      value
    }
  }
}
