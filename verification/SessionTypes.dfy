/** Session configurations, executions and revert reasons shared by hook and adapter. */
module SessionTypes {
  import opened Basics
  import opened Words

  type Bytes4 = b: Bytes | |b| == 4 witness [0, 0, 0, 0]

  const CALLTYPE_SINGLE: nat := 0x00
  const CALLTYPE_BATCH: nat := 0x01
  const CALLTYPE_DELEGATE: nat := 0xff

  const TRANSFER_SELECTOR: Bytes4 := [0xa9, 0x05, 0x9c, 0xbb]

  datatype SessionConfig = SessionConfig(
    sessionId: Word,
    policyHash: Word,
    account: Address,
    sessionKey: Address,
    token: Address,
    allowedTarget: Address,
    allowedRecipient: Address,
    allowedSelector: Bytes4,
    nonceKey: nat,
    maxPerTransfer: nat,
    maxTotalSpend: nat,
    validAfter: nat,
    validUntil: nat,
    allowBatch: bool,
    revoked: bool)

  datatype Execution = Execution(target: Address, value: nat, callData: Bytes)

  datatype Error =
    | Unauthorized | ZeroAddress | InvalidAccount | InvalidSessionId | InvalidSessionKey
    | InvalidSpendLimits | InvalidValidityWindow | InvalidSignature | InvalidOwnerSignature
    | InvalidRailguardSignature | SessionAlreadyExists | SessionNotFound | SessionRevoked
    | SessionNotYetValid | SessionExpired | ExecutionReplayed | ExceedsMaxTotalSpend
    | ExceedsMaxPerTransfer | DelegatecallRejected | BatchNotAllowed | UnknownExecutionMode
    | WrongTarget | SelfCallRejected | NativeEthRejected | TargetMustEqualToken
    | UnsupportedSelector | WrongRecipient | HookCallFailed | TransferReturnedFalse
    | AbiDecodeFailed | ArithmeticOverflow

  /** A call either returns a value or reverts; a revert undoes every effect of the call. */
  datatype Result<+T> = Ok(value: T) | Revert(error: Error) {
    predicate IsFailure() {
      Revert?
    }

    function PropagateFailure<U>(): Result<U>
      requires Revert?
    {
      Revert(error)
    }

    function Extract(): T
      requires Ok?
    {
      value
    }
  }

  /** Checked uint256 addition. */
  function CheckedAdd(a: nat, b: nat): Result<nat> {
    if a + b < UINT256_LIMIT then Ok(a + b) else Revert(ArithmeticOverflow)
  }
}
