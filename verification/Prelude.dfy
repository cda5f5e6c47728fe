/** Results, error codes and the numeric bounds shared by every module. */
module Prelude {

  const BPS: nat := 10_000
  const U64_MAX: nat := 0xFFFF_FFFF_FFFF_FFFF
  const U128_MAX: nat := 0xFFFF_FFFF_FFFF_FFFF_FFFF_FFFF_FFFF_FFFF

  /** The program's error codes, with the runtime's own failures at the end. */
  datatype Error =
    | InvalidMineCount | InvalidTileIndex | TileAlreadyRevealed | GameNotPlaying | BetTooLow
    | BetExceedsMax | VaultInsufficientFunds | VaultPaused | MathOverflow | NoTilesRevealed
    | GameNotExpired | GameExpired | GameAlreadySettled | GameNotFinished | CommitmentMismatch
    | Unauthorized | InvalidConfig | InvalidAmount | DestinationNotAllowlisted | ReferralMismatch
    | NothingToClaim | SelfReferral | ReferrerAlreadySet | InsufficientLiquidity | DepositBelowMin
    | PendingWithdrawAlreadyExists | InsufficientUnits | NoPendingWithdraw | CooldownNotElapsed
    | LpPositionNotEmpty | UserPositionCapExceeded | HouseShareFloorBreached | HealthFloorBreached
    | NoOperatorUnitsToUnlock | VrfModeDisabled | VrfValidatorNotSet | WrongVrfValidator
    | BadSessionKey | RevealPending | NoRevealPending | TooManyReveals | ReplayMismatch
    | NotStalledYet | BadGameAccount | GameAlreadyResolved | PayoutExceedsReserved | GameStillDelegated
    | InvalidCommitment | RevealMismatch
    | AccountInUse | AccountMissing

  datatype Result<+T> = Ok(value: T) | Err(error: Error) {
    predicate IsFailure() { Err? }
    function PropagateFailure<U>(): Result<U>
      requires Err?
    {
      Err(error)
    }
    function Extract(): T
      requires Ok?
    {
      value
    }
  }

  /** The outcome of a `require!`. */
  datatype Outcome = Pass | Fail(error: Error) {
    predicate IsFailure() { Fail? }
    function PropagateFailure<U>(): Result<U>
      requires Fail?
    {
      Err(error)
    }
  }

  function Need(condition: bool, error: Error): Outcome {
    if condition then Pass else Fail(error)
  }

  datatype Option<+T> = None | Some(value: T)

  /** An optional setting: `None` keeps what is there. */
  function Or<T>(setting: Option<T>, current: T): T {
    if setting.Some? then setting.value else current
  }

  function Min(a: nat, b: nat): nat { if a <= b then a else b }

  /** `a.saturating_sub(b)` on unsigned values. */
  function SatSub(a: nat, b: nat): nat { if a >= b then a - b else 0 }

  /** `a.saturating_add(b)` on u64 values. */
  function SatAdd(a: nat, b: nat): nat { Min(a + b, U64_MAX) }
}
