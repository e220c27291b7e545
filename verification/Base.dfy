/** Machine integers, results and small collection helpers shared by every contract. */
module Base {
  const I128_MAX: int := 0x7FFF_FFFF_FFFF_FFFF_FFFF_FFFF_FFFF_FFFF
  const I128_MIN: int := -0x8000_0000_0000_0000_0000_0000_0000_0000
  const U128_MAX: int := 0xFFFF_FFFF_FFFF_FFFF_FFFF_FFFF_FFFF_FFFF
  const U64_MAX: int := 0xFFFF_FFFF_FFFF_FFFF
  const U32_MAX: int := 0xFFFF_FFFF

  type i128 = x: int | I128_MIN <= x <= I128_MAX
  type u128 = x: int | 0 <= x <= U128_MAX
  type u64 = x: int | 0 <= x <= U64_MAX
  type u32 = x: int | 0 <= x <= U32_MAX
  type u8 = x: int | 0 <= x <= 0xFF

  /** The host's vector: its length is a u32. */
  type Vec<+T> = s: seq<T> | |s| <= U32_MAX witness []

  /** 32 raw bytes. */
  type Bytes32 = s: seq<u8> | |s| == 32 witness seq(32, i => 0)

  datatype Address = Address(id: nat)

  /** Contract errors; `Trap` stands for a panic or a host error. */
  datatype Error =
    | Unauthorized
    | EscrowNotFound
    | InvalidAmount
    | DisputeNotFound
    | DisputeAlreadyResolved
    | InvalidState
    | AlreadyVoted
    | InsufficientStake
    | NoVotesCast
    | MilestoneAmountMismatch
    | JurorStakeNotFound
    | MilestoneNotFound
    | InvalidFeeBps
    | ArithmeticOverflow
    | TokenTransferFailed
    | CommitPhaseEnded
    | RevealPhaseNotOpen
    | AlreadyCommitted
    | NoCommitFound
    | InvalidReveal
    | RevealPhaseNotEnded
    | ContractPaused
    | MilestoneTimeLocked
    | Trap

  datatype Result<+T> = Ok(value: T) | Err(error: Error) {
    predicate IsFailure() { Err? }
    function PropagateFailure<U>(): Result<U>
      requires Err?
    {
      Err(error)
    }
    function Extract(): T
      requires Ok?
    {
      value
    }
  }

  /** Outcome of a guard. */
  datatype Check = Pass | Fail(error: Error) {
    predicate IsFailure() { Fail? }
    function PropagateFailure<U>(): Result<U>
      requires Fail?
    {
      Err(error)
    }
  }

  function Need(condition: bool, error: Error): Check
  {
    if condition then Pass else Fail(error)
  }

  datatype Option<+T> = None | Some(value: T) {
    function OkOr(e: Error): Result<T>
    {
      if Some? then Ok(value) else Err(e)
    }
  }

  predicate InI128(x: int) { I128_MIN <= x <= I128_MAX }

  function CheckedI128(x: int): Option<i128>
  {
    if InI128(x) then Some(x) else None
  }

  function CheckedAdd(a: i128, b: i128): Option<i128> { CheckedI128(a + b) }

  function CheckedSub(a: i128, b: i128): Option<i128> { CheckedI128(a - b) }

  function CheckedMul(a: i128, b: i128): Option<i128> { CheckedI128(a * b) }

  function CheckedIncU32(a: u32): Option<u32>
  {
    if a < U32_MAX then Some(a + 1) else None
  }

  function SaturatingAddU32(a: u32, b: u32): u32
  {
    if a + b <= U32_MAX then a + b else U32_MAX
  }

  /** Rust's `/` on signed integers truncates toward zero. */
  function TruncDiv(a: int, b: int): int
    requires b > 0
  {
    if a >= 0 then a / b else -((-a) / b)
  }

  /** Rust's `%`: the remainder takes the dividend's sign. */
  function TruncRem(a: int, b: int): int
    requires b > 0
  {
    a - TruncDiv(a, b) * b
  }

  function GetOr<K, V>(m: map<K, V>, k: K, d: V): V
  {
    if k in m then m[k] else d
  }

  ghost predicate NoDup<T>(s: seq<T>)
  {
    forall i, j :: 0 <= i < j < |s| ==> s[i] != s[j]
  }
}
