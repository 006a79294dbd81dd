/**
 * Options and results; a Go error return is an Err, and an index out of range, which stops a Go program, is
 * Err(IndexOutOfRange).
 */
module Results {
  datatype Option<+T> = None | Some(value: T)

  datatype Error =
    | AccountNotPayable
    | ActionNotAllowed
    | AddressIsNotAllowed
    | AddressIsNotDCTSystemSC
    | BuiltInFunctionCalledWithValue
    | CannotWipeAccountNotFrozen
    | DCTIsFrozenForAccount
    | DCTTokenIsPaused
    | IndexOutOfRange
    | InsufficientFunds
    | InsufficientQuantityDCT
    | InvalidAddressLength
    | InvalidArguments
    | InvalidDataString
    | InvalidLiquidityForDCT
    | InvalidMetadata
    | InvalidNFTQuantity
    | InvalidNonce
    | InvalidNumOfArgs
    | InvalidRcvAddr
    | InvalidTokenID
    | NegativeValue
    | NewNFTDataOnSenderAddress
    | NFTDoesNotHaveMetadata
    | NilDCTData
    | NilMetaData
    | NilUserAccount
    | NotDCTTransferInput
    | NotEnoughArguments
    | NotEnoughGas
    | OnlyFungibleTokensHaveBalanceTransfer
    | OnlySystemAccountAccepted
    | TokenHasValidMetadata
    | TokenizeFailed
    | TooManyTransferAddresses
    | UnmarshalFailed

  datatype Result<+T> = Ok(value: T) | Err(error: Error) {
    predicate IsFailure() {
      Err?
    }

    function PropagateFailure<U>(): Result<U>
      requires Err?
    {
      Err(error)
    }

    function Extract(): T
      requires Ok?
    {
      value
    }
  }

  /** Fails with the given error unless the condition holds. */
  function Need(condition: bool, error: Error): (r: Result<()>)
    ensures r.Ok? <==> condition
  {
    if condition then Ok(()) else Err(error)
  }
}
