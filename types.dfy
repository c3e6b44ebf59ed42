/** Shared vocabulary of the candy-machine program: the fixed-width integers of
    its records, account keys, its error codes, and the ways an instruction
    can fail. */
module CandyTypes {

  const U32_LIMIT: int := 0x1_0000_0000
  const U64_LIMIT: int := 0x1_0000_0000_0000_0000

  type u8 = x: int | 0 <= x < 0x100
  type u16 = x: int | 0 <= x < 0x1_0000
  type u32 = x: int | 0 <= x < 0x1_0000_0000
  type u64 = x: int | 0 <= x < 0x1_0000_0000_0000_0000
  type i64 = x: int | -0x8000_0000_0000_0000 <= x < 0x8000_0000_0000_0000

  /** An account address; only compared for equality. */
  datatype Pubkey = Pubkey(bytes: seq<u8>)

  datatype Option<+T> = None | Some(value: T)

  /** The program's own error enumeration, in declaration order. */
  datatype ErrorCode =
    | IncorrectOwner
    | Uninitialized
    | MintMismatch
    | IndexGreaterThanLength
    | ConfigMustHaveAtleastOneEntry
    | NumericalOverflowError
    | TooManyCreators
    | UuidMustBeExactly6Length
    | NotEnoughTokens
    | NotEnoughSOL
    | TokenTransferFailed
    | CandyMachineEmpty
    | CandyMachineNotLiveYet

  /** Why an instruction aborted: one of the program's error codes, a Borsh
      decoding or encoding error, a Rust panic (arithmetic underflow or a
      slice outside its buffer), or a cross-program call that the called
      program rejected. Every one of them aborts the whole instruction. */
  datatype Fault =
    | Custom(code: ErrorCode)
    | BorshIoError
    | Panic
    | CpiRejected

  /** The result of an operation that can abort. */
  datatype Result<+T> = Success(value: T) | Failure(fault: Fault) {
    predicate IsFailure() {
      Failure?
    }

    function PropagateFailure<U>(): Result<U>
      requires Failure?
    {
      Failure(fault)
    }

    function Extract(): T
      requires Success?
    {
      value
    }
  }
}
