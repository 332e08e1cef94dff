/** Values shared by every component: optional values, contract results, the
    integer bounds of the host, and a few facts about sequences. */
module Common {

  datatype Option<+T> = None | Some(value: T)

  /** Contract errors that the modelled entry points return. `Trap` is a host
      abort: a missing authorisation, an arithmetic overflow (the release
      profile checks for it) or a failed token transfer. */
  datatype PaymentError =
    | Trap
    | Unauthorized
    | MerchantNotFound
    | MerchantInactive
    | PaymentNotFound
    | PaymentAlreadyExists
    | InvalidAmount
    | TokenNotAllowed
    | RefundNotFound
    | RefundAlreadyExists
    | RefundWindowExpired
    | RefundExceedsOriginal
    | RefundNotApproved
    | RefundAlreadyCompleted
    | RefundBelowMinimum
    | RefundLimitExceeded
    | InvalidInput
    | BatchSizeExceeded
    | DuplicateOrderId
    | InvalidOrderId
    | OrderIdTooLong
    | ContractPaused
    | PaymentHistoryLimitExceeded
    | DisputeNotFound
    | DisputeAlreadyExists
    | DisputeRefundNotRejected
    | DisputeAlreadyResolved
    | Refused(code: nat)

  datatype Result<+T> = Ok(value: T) | Err(error: PaymentError) {
    predicate IsFailure() { Err? }
    function PropagateFailure<U>(): Result<U>
      requires Err?
    {
      Err(error)
    }
    function Extract(): T
      requires Ok?
    {
      value
    }
  }

  datatype Check = Pass | Fail(error: PaymentError) {
    predicate IsFailure() { Fail? }
    function PropagateFailure<U>(): Result<U>
      requires Fail?
    {
      Err(error)
    }
  }

  function Need(condition: bool, error: PaymentError): Check {
    if condition then Pass else Fail(error)
  }

  type Address = string
  type Id = string

  const I128_MAX: int := 0x7FFF_FFFF_FFFF_FFFF_FFFF_FFFF_FFFF_FFFF
  const U64_MAX: int := 0xFFFF_FFFF_FFFF_FFFF
  const U32_MAX: int := 0xFFFF_FFFF

  function Min(a: int, b: int): int {
    if a < b then a else b
  }

  function Pow2(n: nat): nat {
    if n == 0 then 1 else 2 * Pow2(n - 1)
  }

  ghost predicate Distinct<T>(xs: seq<T>) {
    forall i, j :: 0 <= i < j < |xs| ==> xs[i] != xs[j]
  }

  function Map<X, Y>(f: X -> Y, xs: seq<X>): (ys: seq<Y>)
    ensures |ys| == |xs|
  {
    if xs == [] then [] else Map(f, xs[..|xs| - 1]) + [f(xs[|xs| - 1])]
  }

  lemma {:induction false} MapAt<X, Y>(f: X -> Y, xs: seq<X>, k: nat)
    requires k < |xs|
    ensures Map(f, xs)[k] == f(xs[k])
  {
    if k < |xs| - 1 {
      MapAt(f, xs[..|xs| - 1], k);
    }
  }

  /** The value stored under `k`, or `d` when there is none. */
  function Lookup<K, V>(m: map<K, V>, k: K, d: V): V {
    if k in m then m[k] else d
  }
}
