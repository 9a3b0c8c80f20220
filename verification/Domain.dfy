/** The rows of the finance tables and the guards on their status. */
module Domain {
  import opened Int64

  datatype EscrowStatus =
    | Created | Funded | Locked | DisputeWindow | Frozen | Released | Refunded | PartiallyRefunded
  {
    predicate CanPayFromWallet() { this == Created }

    predicate CanFund() { this == Created }

    predicate CanMarkDelivered() { this == Funded }

    predicate CanFreeze() { this == DisputeWindow || this == Locked }

    predicate CanRelease() { this == DisputeWindow || this == PartiallyRefunded }

    predicate CanRefund() { this in {Funded, DisputeWindow, Frozen, PartiallyRefunded} }

    predicate CanPartialRefund() { CanRefund() }
  }

  datatype FundingSource = NoSource | FromPsp | FromWallet | FromPromoCredit | Mixed

  datatype EscrowRow = EscrowRow(
    carrier: string,
    payer: string,
    amount: int,
    status: EscrowStatus,
    paymentOrderId: string,
    source: FundingSource,
    promoCreditFunded: int)

  datatype Purpose = Shipment | TopUp

  datatype OrderStatus = Pending | Confirmed | OrderFailed

  datatype OrderRow = OrderRow(
    shipmentId: string,
    payer: string,
    purpose: Purpose,
    amount: int,
    status: OrderStatus,
    authority: string)

  datatype WithdrawalStatus =
    | WPending | Approved | SentToBank | Settled | WFailed | Completed | Rejected
  {
    /** The reserve has been given back. */
    predicate Returned() { this == WFailed || this == Rejected }
  }

  datatype WithdrawalRow = WithdrawalRow(user: string, amount: int, status: WithdrawalStatus)

  datatype GrantStatus = Active | Reversed

  datatype GrantRow = GrantRow(user: string, amount: int, status: GrantStatus, idempotencyKey: string)

  /** The platform fee on an amount: the product amount * percent / 100, whatever int64 the floating-point
      computation produced, clamped to the amount. */
  function CalcPlatformFee(amount: int, product: int64): (fee: int)
    ensures amount >= 0 ==> 0 <= fee <= amount
    ensures 0 <= product <= amount ==> fee == product
  {
    if amount <= 0 then 0
    else if product < 0 then 0
    else if product > amount then amount
    else product
  }

  /** amount * percent / 100 cut off to an integer, in exact arithmetic; for amounts and percentages that are not negative
      cutting off is rounding down. */
  function FeeProduct(amount: int, percent: real): int {
    (amount as real * percent / 100.0).Floor
  }

  lemma Scale(a: real, p: real, q: real)
    requires a >= 0.0 && p <= q
    ensures a * p <= a * q && (a > 0.0 && p < q ==> a * p < a * q)
  {
    var gap := q - p;
    assert a * gap >= 0.0 && (a > 0.0 && gap > 0.0 ==> a * gap > 0.0);
    assert a * (p + gap) == a * p + a * gap;
  }

  lemma ShareInRange(amount: int, percent: real, share: real)
    requires amount >= 0 && 0.0 <= percent <= 100.0 && share == amount as real * percent
    ensures 0.0 <= share <= amount as real * 100.0
  {
    Scale(amount as real, 0.0, percent);
    Scale(amount as real, percent, 100.0);
  }

  /** Up to one hundred percent the fee is the largest integer not above that share of the amount, and the clamp to the
      amount leaves it as it is. */
  lemma PercentFee(amount: int, percent: real)
    requires 0 <= amount <= MAX && 0.0 <= percent <= 100.0
    ensures var fee := FeeProduct(amount, percent);
            && 0 <= fee <= amount && CalcPlatformFee(amount, fee) == fee
            && fee as real * 100.0 <= amount as real * percent < (fee + 1) as real * 100.0
  {
    var share := amount as real * percent;
    ShareInRange(amount, percent, share);
    FloorShare(amount, share);
  }

  lemma FloorShare(amount: int, share: real)
    requires 0.0 <= share <= amount as real * 100.0
    ensures var fee := (share / 100.0).Floor;
            0 <= fee <= amount && fee as real * 100.0 <= share < (fee + 1) as real * 100.0
  {
    var fee := (share / 100.0).Floor;
    assert fee as real <= share / 100.0 < fee as real + 1.0;
    assert (fee + 1) as real == fee as real + 1.0;
  }

  // ---- in floating point -----------------------------------------------------------------------

  /** Up to 2^53 a float64 holds every integer. */
  const EXACT := 0x20_0000_0000_0000

  /** Rounding to float64, in any mode: monotone, and exact on those integers. */
  ghost predicate Rounds(round: real -> real) {
    && (forall x, y :: x <= y ==> round(x) <= round(y))
    && (forall x: real :: x.Floor as real == x && -EXACT <= x.Floor <= EXACT ==> round(x) == x)
  }

  /** The product behind the fee with each of its operations rounded. */
  function FloatFee(round: real -> real, amount: int, percent: real): int {
    round(round(round(amount as real) * percent) / 100.0).Floor
  }

  /** The rounded share is not above an integer that the share is not above, nor below one it is not below. */
  lemma FloatBounds(round: real -> real, share: real, k: int)
    requires Rounds(round) && 0 <= k && k * 100 <= EXACT
    ensures share <= k as real * 100.0 ==> round(round(share) / 100.0) <= k as real
    ensures share >= k as real * 100.0 ==> round(round(share) / 100.0) >= k as real
  {
    assert (k * 100) as real == k as real * 100.0 && round((k * 100) as real) == (k * 100) as real;
    assert round(k as real) == k as real;
    if share <= k as real * 100.0 {
      assert round(share) <= k as real * 100.0;
      assert round(share) / 100.0 <= k as real;
    }
    if share >= k as real * 100.0 {
      assert round(share) >= k as real * 100.0;
      assert round(share) / 100.0 >= k as real;
    }
  }

  lemma FloatFloor(round: real -> real, share: real, k: int)
    requires Rounds(round) && 0 <= k && k * 100 <= EXACT
    ensures share <= k as real * 100.0 ==> round(round(share) / 100.0).Floor <= k
    ensures share >= k as real * 100.0 ==> round(round(share) / 100.0).Floor >= k
  {
    FloatBounds(round, share, k);
  }

  lemma FloatFeeIs(round: real -> real, amount: int, percent: real, share: real)
    requires Rounds(round) && 0 <= amount <= EXACT && share == amount as real * percent
    ensures FloatFee(round, amount, percent) == round(round(share) / 100.0).Floor
  {
    assert round(amount as real) == amount as real;
  }

  /** Between the same integers lies the fee. */
  lemma FloatFeeBounds(round: real -> real, amount: int, percent: real, k: int)
    requires Rounds(round) && 0 <= amount && amount * 100 <= EXACT && 0 <= k && k * 100 <= EXACT
    ensures amount as real * percent <= k as real * 100.0 ==> FloatFee(round, amount, percent) <= k
    ensures amount as real * percent >= k as real * 100.0 ==> FloatFee(round, amount, percent) >= k
  {
    var share := amount as real * percent;
    FloatFeeIs(round, amount, percent, share);
    FloatFloor(round, share, k);
  }

  /** So rounding leaves the fee as it is in exact arithmetic or makes it one more, and never more than the amount. */
  lemma RoundedFee(round: real -> real, amount: int, percent: real)
    requires Rounds(round) && 0 <= amount && amount * 100 <= EXACT && 0.0 <= percent <= 100.0
    ensures var fee := FeeProduct(amount, percent);
            && fee <= FloatFee(round, amount, percent) <= fee + 1
            && 0 <= FloatFee(round, amount, percent) <= amount
  {
    var fee, share := FeeProduct(amount, percent), amount as real * percent;
    PercentFee(amount, percent);
    ShareInRange(amount, percent, share);
    FloatFeeBounds(round, amount, percent, fee);
    FloatFeeBounds(round, amount, percent, amount);
    if fee < amount {
      FloatFeeBounds(round, amount, percent, fee + 1);
    }
  }
}
