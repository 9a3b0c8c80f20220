/** Exactly when each use case succeeds, over whole histories. */
module Success {
  import opened Results
  import opened Int64
  import opened Accounts
  import opened Refs
  import opened Ledger
  import opened Postings
  import opened Domain
  import opened Machine
  import opened Story
  import opened Effects
  import opened Moves
  import opened Preservation
  import opened Bookkeeping
  import opened Steps
  import opened Guarantees

  // ---- releases and refunds --------------------------------------------------------------------

  lemma ReleaseKeyFree(s: State, ship: string)
    requires Reachable(s) && ship in s.escrows && s.escrows[ship].status != Released
    ensures (EscrowRelease, ReleaseRef(ship)) !in Keys(s.log)
  {
    ReachableGood(s);
    assert ReleaseKey(s, ship);
  }

  lemma ReleaseIff(s: State, ship: string, feeProduct: int64, balance: int)
    requires ship != "" && ship in s.escrows && s.escrows[ship].status in {DisputeWindow, PartiallyRefunded}
    requires Balance(s.log, Of(Escrow(ship))) == Ok(balance) && 0 < balance <= MAX
    requires (EscrowRelease, ReleaseRef(ship)) !in Keys(s.log)
    ensures ReleaseEscrow(s, ship, feeProduct).result.Ok? <==> 0 < CalcPlatformFee(balance, feeProduct) < balance
    ensures ReleaseEscrow(s, ship, feeProduct).result.Err? ==> ReleaseEscrow(s, ship, feeProduct) == Refuse(s, InvalidEntry)
  {
    var fee := CalcPlatformFee(balance, feeProduct);
    assert Sub(balance, fee) == balance - fee;
    ReleaseSound(ship, s.escrows[ship].carrier, balance, fee);
  }

  lemma ReleasableIff(s: State, ship: string, feeProduct: int64)
    requires Reachable(s) && ship != "" && ship in s.escrows && s.escrows[ship].status in {DisputeWindow, PartiallyRefunded}
    ensures ReleaseEscrow(s, ship, feeProduct).result.Ok? <==> 0 < feeProduct < Net(s.log, Of(Escrow(ship)))
    ensures ReleaseEscrow(s, ship, feeProduct).result.Err? ==> ReleaseEscrow(s, ship, feeProduct) == Refuse(s, InvalidEntry)
  {
    EscrowReadable(s, ship);
    StatusFixesBalance(s, ship);
    ReleaseKeyFree(s, ship);
    ReleaseIff(s, ship, feeProduct, Net(s.log, Of(Escrow(ship))));
  }

  /** A release succeeds exactly in DISPUTE_WINDOW and PARTIALLY_REFUNDED and when the fee leaves something on both sides; a
      fee of zero or of the whole balance would need a zero line, which the journal check refuses. An empty balance, one that
      cannot be read, or a second release never is the reason. */
  lemma ReleaseSucceeds(s: State, ship: string, feeProduct: int64)
    requires Reachable(s)
    ensures ReleaseEscrow(s, ship, feeProduct).result.Ok? <==>
            && ship != "" && ship in s.escrows && s.escrows[ship].status in {DisputeWindow, PartiallyRefunded}
            && 0 < feeProduct < Net(s.log, Of(Escrow(ship)))
    ensures ReleaseEscrow(s, ship, feeProduct).result.Err? ==>
              ReleaseEscrow(s, ship, feeProduct) == Refuse(s,
                if ship == "" then InvalidAmount else if ship !in s.escrows then EscrowNotFound
                else if s.escrows[ship].status !in {DisputeWindow, PartiallyRefunded} then InvalidTransition else InvalidEntry)
  {
    if ship != "" && ship in s.escrows && s.escrows[ship].status in {DisputeWindow, PartiallyRefunded} {
      ReleasableIff(s, ship, feeProduct);
    }
  }

  /** With a fee of percent of the balance, in exact arithmetic: exactly when that share comes to at least one, and is not all. */
  lemma ReleaseAtPercent(s: State, ship: string, percent: real)
    requires Reachable(s) && ship != "" && ship in s.escrows && s.escrows[ship].status in {DisputeWindow, PartiallyRefunded}
    requires 0.0 <= percent <= 100.0
    ensures var balance := Net(s.log, Of(Escrow(ship)));
            && 0 <= FeeProduct(balance, percent) <= balance <= MAX
            && (ReleaseEscrow(s, ship, FeeProduct(balance, percent)).result.Ok? <==>
                balance as real * percent >= 100.0 && percent < 100.0)
  {
    var balance := Net(s.log, Of(Escrow(ship)));
    StatusFixesBalance(s, ship);
    EscrowReadable(s, ship);
    SharePayable(balance, percent);
    ReleaseSucceeds(s, ship, FeeProduct(balance, percent));
  }

  /** Both the fee and the rest come to at least one. */
  lemma SharePayable(balance: int, percent: real)
    requires 0 < balance <= MAX && 0.0 <= percent <= 100.0
    ensures var fee := FeeProduct(balance, percent);
            && 0 <= fee <= balance && CalcPlatformFee(balance, fee) == fee
            && (0 < fee < balance <==> balance as real * percent >= 100.0 && percent < 100.0)
  {
    PercentFee(balance, percent);
    NotAll(balance, percent, balance as real * percent);
    FeeBelow(balance, FeeProduct(balance, percent), balance as real * percent);
  }

  lemma NotAll(balance: int, percent: real, share: real)
    requires balance > 0 && 0.0 <= percent <= 100.0 && share == balance as real * percent
    ensures share < balance as real * 100.0 <==> percent < 100.0
  {
    if percent < 100.0 {
      Scale(balance as real, percent, 100.0);
    } else {
      Scale(balance as real, 100.0, percent);
    }
  }

  lemma FeeBelow(balance: int, fee: int, share: real)
    requires fee as real * 100.0 <= share < (fee + 1) as real * 100.0
    ensures fee < balance <==> share < balance as real * 100.0
    ensures fee > 0 <==> share >= 100.0
  {
    if fee < balance {
      assert (fee + 1) as real <= balance as real;
    } else {
      assert balance as real <= fee as real;
    }
    if fee > 0 {
      assert 1.0 <= fee as real;
    } else {
      assert (fee + 1) as real <= 1.0;
    }
  }

  /** The exact share is at least one and leaves at least one. */
  predicate ShareLeavesBoth(balance: int, percent: real) {
    100.0 <= balance as real * percent <= (balance - 1) as real * 100.0
  }

  /** With the fee that float64 computes, however it rounds: a release succeeds whenever the exact share leaves something
      on both sides, and never at zero or at one hundred percent. */
  lemma ReleaseRounded(s: State, ship: string, percent: real, round: real -> real, fee: int64)
    requires Reachable(s) && ship != "" && ship in s.escrows && s.escrows[ship].status in {DisputeWindow, PartiallyRefunded}
    requires Rounds(round) && Net(s.log, Of(Escrow(ship))) * 100 <= EXACT && 0.0 <= percent <= 100.0
    requires fee == FloatFee(round, Net(s.log, Of(Escrow(ship))), percent)
    ensures 0 <= fee <= Net(s.log, Of(Escrow(ship)))
    ensures ShareLeavesBoth(Net(s.log, Of(Escrow(ship))), percent) ==> ReleaseEscrow(s, ship, fee).result.Ok?
    ensures percent == 0.0 || percent == 100.0 ==> ReleaseEscrow(s, ship, fee).result.Err?
  {
    ReleaseBalance(s, ship);
    RoundedFee(round, Net(s.log, Of(Escrow(ship))), percent);
    FloatEnds(round, Net(s.log, Of(Escrow(ship))));
    if ShareLeavesBoth(Net(s.log, Of(Escrow(ship))), percent) {
      FloatLeavesBoth(round, Net(s.log, Of(Escrow(ship))), percent);
    }
    ReleaseSucceeds(s, ship, fee);
  }

  lemma ReleaseBalance(s: State, ship: string)
    requires Reachable(s) && ship in s.escrows && s.escrows[ship].status in {DisputeWindow, PartiallyRefunded}
    ensures 0 < Net(s.log, Of(Escrow(ship))) <= MAX
  {
    StatusFixesBalance(s, ship);
    EscrowReadable(s, ship);
  }

  lemma FloatLeavesBoth(round: real -> real, balance: int, percent: real)
    requires Rounds(round) && 0 < balance && balance * 100 <= EXACT && ShareLeavesBoth(balance, percent)
    ensures 0 < FloatFee(round, balance, percent) < balance
  {
    FloatFeeBounds(round, balance, percent, 1);
    FloatFeeBounds(round, balance, percent, balance - 1);
  }

  lemma FloatEnds(round: real -> real, balance: int)
    requires Rounds(round) && 0 < balance && balance * 100 <= EXACT
    ensures FloatFee(round, balance, 0.0) == 0 && FloatFee(round, balance, 100.0) == balance
  {
    RoundedFee(round, balance, 0.0);
    RoundedFee(round, balance, 100.0);
    FloatFeeBounds(round, balance, 0.0, 0);
    FloatFeeBounds(round, balance, 100.0, balance);
  }

  /** No earlier refund leg of the same kind had the same amount. */
  ghost predicate LegsNew(log: Log, ship: string, promo: int, wallet: int) {
    && (promo > 0 ==> promo !in Legs(log, EscrowRefundPromoCredit, ship))
    && (wallet > 0 ==> wallet !in Legs(log, EscrowRefundWallet, ship))
  }

  lemma LegKeys(s: State, ship: string, rt: RefType, n: nat)
    requires Reachable(s) && IsRefund(rt)
    ensures (rt, RefundRef(rt, ship, n)) in Keys(s.log) <==> n in Legs(s.log, rt, ship)
  {
    ReachableGood(s);
    assert LegsTell(s.log, rt, ship);
  }

  lemma ReturnLegalIff(s: State, ship: string, refund: int)
    requires Reachable(s) && ship in s.escrows && s.escrows[ship].status.CanRefund()
    requires 0 < refund <= Net(s.log, Of(Escrow(ship))) <= MAX
    ensures Legal(s, Return(ship, refund)) <==>
            LegsNew(s.log, ship, Back(s.escrows[ship], refund).0, Back(s.escrows[ship], refund).1)
  {
    var (p, w) := Back(s.escrows[ship], refund);
    LegKeys(s, ship, EscrowRefundPromoCredit, p);
    LegKeys(s, ship, EscrowRefundWallet, w);
  }

  /** What promo credit gets back first. */
  function PromoPart(e: EscrowRow, refund: int): int {
    if refund < e.promoCreditFunded then refund else e.promoCreditFunded
  }

  lemma PartIsBack(s: State, ship: string, refund: int)
    requires Reachable(s) && ship in s.escrows && refund > 0
    ensures Back(s.escrows[ship], refund) == (PromoPart(s.escrows[ship], refund), refund - PromoPart(s.escrows[ship], refund))
  {
    StatusFixesBalance(s, ship);
  }

  lemma RefundableIff(s: State, ship: string, refund: int64)
    requires Reachable(s) && ship != "" && ship in s.escrows
    requires s.escrows[ship].status in {Funded, DisputeWindow, Frozen, PartiallyRefunded}
    requires 0 < refund <= Net(s.log, Of(Escrow(ship)))
    ensures var p := PromoPart(s.escrows[ship], refund);
            && (PartialRefundEscrow(s, ship, refund).result.Ok? <==> LegsNew(s.log, ship, p, refund - p))
            && (refund == Net(s.log, Of(Escrow(ship))) ==>
                  (RefundEscrow(s, ship).result.Ok? <==> LegsNew(s.log, ship, p, refund - p)))
  {
    EscrowReadable(s, ship);
    RefundPosts(s, ship, refund);
    ReturnLegalIff(s, ship, refund);
    PartIsBack(s, ship, refund);
  }

  lemma PayRefundRefused(s: State, ship: string, e: EscrowRow, balance: int, refund: int)
    requires refund > 0 && PayRefund(s, ship, e, balance, refund).result.Err?
    ensures PayRefund(s, ship, e, balance, refund) == Refuse(s, DuplicateJournal)
  {
    RefundPostsBoth(s.log, e.payer, ship, Back(e, refund).0, Back(e, refund).1);
  }

  lemma RefundRefused(s: State, ship: string, refund: int64)
    requires Reachable(s) && ship != "" && ship in s.escrows
    requires s.escrows[ship].status in {Funded, DisputeWindow, Frozen, PartiallyRefunded}
    requires 0 < refund <= Net(s.log, Of(Escrow(ship)))
    ensures var one, all := PartialRefundEscrow(s, ship, refund), RefundEscrow(s, ship);
            && (one.result.Err? ==> one == Refuse(s, DuplicateJournal))
            && (all.result.Err? ==> all == Refuse(s, DuplicateJournal))
  {
    var balance := Net(s.log, Of(Escrow(ship)));
    EscrowReadable(s, ship);
    if PayRefund(s, ship, s.escrows[ship], balance, refund).result.Err? {
      PayRefundRefused(s, ship, s.escrows[ship], balance, refund);
    }
    if PayRefund(s, ship, s.escrows[ship], balance, balance).result.Err? {
      PayRefundRefused(s, ship, s.escrows[ship], balance, balance);
    }
  }

  /** A partial refund succeeds exactly in FUNDED, DISPUTE_WINDOW, FROZEN and PARTIALLY_REFUNDED, for a positive amount within
      the balance, when both its legs are new: an equal earlier leg of the same kind, for this shipment, refuses it. */
  lemma PartialRefundSucceeds(s: State, ship: string, refund: int64)
    requires Reachable(s)
    ensures PartialRefundEscrow(s, ship, refund).result.Ok? <==>
            && ship != "" && ship in s.escrows
            && s.escrows[ship].status in {Funded, DisputeWindow, Frozen, PartiallyRefunded}
            && 0 < refund <= Net(s.log, Of(Escrow(ship)))
            && LegsNew(s.log, ship, PromoPart(s.escrows[ship], refund), refund - PromoPart(s.escrows[ship], refund))
    ensures PartialRefundEscrow(s, ship, refund).result.Err? ==>
              PartialRefundEscrow(s, ship, refund) == Refuse(s,
                if ship == "" || refund <= 0 then InvalidAmount else if ship !in s.escrows then EscrowNotFound
                else if s.escrows[ship].status !in {Funded, DisputeWindow, Frozen, PartiallyRefunded} then InvalidTransition
                else if refund > Net(s.log, Of(Escrow(ship))) then RefundExceedsBalance else DuplicateJournal)
  {
    if ship in s.escrows {
      EscrowReadable(s, ship);
      StatusFixesBalance(s, ship);
      if ship != "" && 0 < refund <= Net(s.log, Of(Escrow(ship)))
         && s.escrows[ship].status in {Funded, DisputeWindow, Frozen, PartiallyRefunded} {
        RefundableIff(s, ship, refund);
        RefundRefused(s, ship, refund);
      }
    }
  }

  /** The same for a refund of all that is left: the promo part is then all that promo credit has left in the escrow. */
  lemma RefundSucceeds(s: State, ship: string)
    requires Reachable(s)
    ensures RefundEscrow(s, ship).result.Ok? <==>
            && ship != "" && ship in s.escrows
            && s.escrows[ship].status in {Funded, DisputeWindow, Frozen, PartiallyRefunded}
            && LegsNew(s.log, ship, s.escrows[ship].promoCreditFunded,
                       Net(s.log, Of(Escrow(ship))) - s.escrows[ship].promoCreditFunded)
    ensures RefundEscrow(s, ship).result.Err? ==>
              RefundEscrow(s, ship) == Refuse(s,
                if ship == "" then InvalidAmount else if ship !in s.escrows then EscrowNotFound
                else if s.escrows[ship].status !in {Funded, DisputeWindow, Frozen, PartiallyRefunded} then InvalidTransition
                else DuplicateJournal)
  {
    if ship != "" && ship in s.escrows && s.escrows[ship].status in {Funded, DisputeWindow, Frozen, PartiallyRefunded} {
      EscrowReadable(s, ship);
      StatusFixesBalance(s, ship);
      RefundableIff(s, ship, Net(s.log, Of(Escrow(ship))));
      RefundRefused(s, ship, Net(s.log, Of(Escrow(ship))));
    }
  }

  // ---- funding ---------------------------------------------------------------------------------

  /** The shipment ids in use contain no colon. */
  predicate ColonFree(s: State) {
    forall ship :: ship in s.escrows ==> ':' !in ship
  }

  lemma PayKeysFree(s: State, ship: string)
    requires Reachable(s) && ColonFree(s) && ship in s.escrows && s.escrows[ship].status == Created
    ensures (WalletToEscrow, WalletPayRef(ship)) !in Keys(s.log)
    ensures (PromoCreditToEscrow, WalletPayRef(ship)) !in Keys(s.log)
  {
    ReachableGood(s);
    assert FundingKeyTells(s, WalletToEscrow, WalletPayRef(ship)) && FundingKeyTells(s, PromoCreditToEscrow, WalletPayRef(ship));
    forall other | other in s.escrows ensures WalletPayRef(ship) != WalletEscrowRef(other, s.escrows[other].paymentOrderId) {
      WalletPayApart(ship, other, s.escrows[other].paymentOrderId);
    }
    forall other | WalletPayRef(other) == WalletPayRef(ship) ensures other == ship {
      OneIdRefsInjective(other, ship);
    }
  }

  lemma FundKeysFree(s: State, ship: string, order: string)
    requires Reachable(s) && ColonFree(s) && ship in s.escrows && s.escrows[ship].status == Created
    ensures (PspToWallet, PspWalletRef(ship, order)) !in Keys(s.log)
    ensures (WalletToEscrow, WalletEscrowRef(ship, order)) !in Keys(s.log)
  {
    ReachableGood(s);
    assert FundingKeyTells(s, PspToWallet, PspWalletRef(ship, order));
    assert FundingKeyTells(s, WalletToEscrow, WalletEscrowRef(ship, order));
    forall other | other in s.escrows
      ensures WalletEscrowRef(ship, order) != WalletPayRef(other)
      ensures PspWalletRef(ship, order) == PspWalletRef(other, s.escrows[other].paymentOrderId) ==> other == ship
      ensures WalletEscrowRef(ship, order) == WalletEscrowRef(other, s.escrows[other].paymentOrderId) ==> other == ship
    {
      WalletPayApart(other, ship, order);
      FundingRefsInjective(ship, order, other, s.escrows[other].paymentOrderId);
    }
  }

  lemma CreatedAmount(s: State, ship: string)
    requires Reachable(s) && ship in s.escrows
    ensures 0 < s.escrows[ship].amount <= MAX
  {
    StatusFixesBalance(s, ship);
  }

  /** Both sums of an account can be read into an int64. */
  predicate Readable(log: Log, a: Account) {
    Balance(log, Of(a)).Ok?
  }

  /** The payer's promo credit and wallet can be read, promo is not negative, and the wallet covers what promo does not. */
  predicate Affords(log: Log, payer: string, amount: int) {
    var promo, wallet := Net(log, Of(Promo(payer))), Net(log, Of(Wallet(payer)));
    && Readable(log, Promo(payer)) && Readable(log, Wallet(payer))
    && promo >= 0 && wallet >= amount - (if promo > amount then amount else promo)
  }

  predicate Payable(s: State, ship: string, payer: string, amount: int) {
    && ship != "" && payer != ""
    && ship in s.escrows && s.escrows[ship].status == Created
    && s.escrows[ship].payer == payer && s.escrows[ship].amount == amount
  }

  lemma PayOutcome(s: State, ship: string, payer: string, amount: int64)
    requires Payable(s, ship, payer, amount) && amount > 0
    ensures var key := (if Net(s.log, Of(Promo(payer))) > 0 then PromoCreditToEscrow else WalletToEscrow, WalletPayRef(ship));
            && (PayFromWallet(s, ship, payer, amount).result.Ok? <==> Affords(s.log, payer, amount) && key !in Keys(s.log))
            && (Affords(s.log, payer, amount) && key in Keys(s.log) ==>
                  PayFromWallet(s, ship, payer, amount) == Refuse(s, DuplicateJournal))
  {
    if Readable(s.log, Promo(payer)) && Readable(s.log, Wallet(payer)) {
      PaymentAccepted(amount, Net(s.log, Of(Promo(payer))), Net(s.log, Of(Wallet(payer))), payer, ship);
    }
  }

  /** Paying an escrow from promo credit and wallet succeeds exactly when it is CREATED and asked for by its payer for its
      amount, both balances can be read, promo is not negative, the wallet covers what promo does not, and the payment's key is
      free. */
  lemma PayIff(s: State, ship: string, payer: string, amount: int64)
    requires Reachable(s)
    ensures PayFromWallet(s, ship, payer, amount).result.Ok? <==>
            && Payable(s, ship, payer, amount) && Affords(s.log, payer, amount)
            && (if Net(s.log, Of(Promo(payer))) > 0 then PromoCreditToEscrow else WalletToEscrow, WalletPayRef(ship)) !in Keys(s.log)
  {
    if Payable(s, ship, payer, amount) {
      CreatedAmount(s, ship);
      PayOutcome(s, ship, payer, amount);
    }
  }

  /** A payment that is refused is asked for by the wrong payer or for the wrong amount, in the wrong status, or finds too little
      money or its key taken, and says which. With a negative promo balance it is refused in one of two ways. */
  lemma PayRefused(s: State, ship: string, payer: string, amount: int64)
    requires Reachable(s) && PayFromWallet(s, ship, payer, amount).result.Err?
    ensures var d, promo, wallet := PayFromWallet(s, ship, payer, amount), Net(s.log, Of(Promo(payer))), Net(s.log, Of(Wallet(payer)));
            if ship == "" || payer == "" || amount <= 0 then d == Refuse(s, InvalidAmount)
            else if ship !in s.escrows then d == Refuse(s, EscrowNotFound)
            else if s.escrows[ship].payer != payer then d == Refuse(s, PayerMismatch)
            else if s.escrows[ship].amount != amount then d == Refuse(s, EscrowAmountMismatch)
            else if s.escrows[ship].status != Created then d == Refuse(s, InvalidTransition)
            else if !Readable(s.log, Promo(payer)) || !Readable(s.log, Wallet(payer)) then d == Refuse(s, SumOverflow)
            else if promo < 0 then d in {Refuse(s, InsufficientPayerFunds), Refuse(s, UnbalancedJournal)}
            else if promo + wallet < amount then d == Refuse(s, InsufficientPayerFunds)
            else d == Refuse(s, DuplicateJournal)
  {
    if Payable(s, ship, payer, amount) && amount > 0 && Readable(s.log, Promo(payer)) && Readable(s.log, Wallet(payer)) {
      NoOverdraft(s, |s.log|, Wallet(payer));
      assert s.log[..|s.log|] == s.log;
      PaymentAccepted(amount, Net(s.log, Of(Promo(payer))), Net(s.log, Of(Wallet(payer))), payer, ship);
    }
  }

  /** While shipment ids are free of colons the key always is: its payer can pay a CREATED escrow exactly when the money
      is there. */
  lemma PaySucceeds(s: State, ship: string, payer: string, amount: int64)
    requires Reachable(s) && ColonFree(s)
    ensures PayFromWallet(s, ship, payer, amount).result.Ok? <==>
            Payable(s, ship, payer, amount) && Affords(s.log, payer, amount)
  {
    PayIff(s, ship, payer, amount);
    if Payable(s, ship, payer, amount) {
      PayKeysFree(s, ship);
    }
  }

  lemma SplitNeedsPromo(amount: int64, promo: int64, wallet: int64, payer: string, ship: string, split: Split)
    requires 0 < amount && -MAX <= promo < 0 && -MAX <= wallet && ResolvePayerFundingSplit(amount, promo, wallet) == Ok(split)
    ensures Verdict(EscrowPayLines(payer, ship, split, split.Total())).Some?
  {
    PaymentAccepted(amount, promo, wallet, payer, ship);
  }

  /** With a negative promo balance no payment succeeds, however full the wallet is. */
  lemma NegativePromoRefused(s: State, ship: string, payer: string, amount: int64)
    requires Net(s.log, Of(Promo(payer))) < 0
    ensures PayFromWallet(s, ship, payer, amount).result.Err?
  {
    var promo, wallet := Balance(s.log, Of(Promo(payer))), Balance(s.log, Of(Wallet(payer)));
    if amount > 0 && promo.Ok? && wallet.Ok? {
      var split := ResolvePayerFundingSplit(amount, promo.value, wallet.value);
      if split.Ok? {
        SplitNeedsPromo(amount, promo.value, wallet.value, payer, ship, split.value);
      }
    }
  }

  /** Funding from the provider succeeds exactly in CREATED and with both keys free. */
  lemma FundIff(s: State, ship: string, order: string)
    requires Reachable(s)
    ensures FundEscrow(s, ship, order).result.Ok? <==>
            && ship != "" && order != "" && ship in s.escrows && s.escrows[ship].status == Created
            && (PspToWallet, PspWalletRef(ship, order)) !in Keys(s.log)
            && (WalletToEscrow, WalletEscrowRef(ship, order)) !in Keys(s.log)
    ensures FundEscrow(s, ship, order).result.Err? ==>
              FundEscrow(s, ship, order) == Refuse(s,
                if ship == "" || order == "" then InvalidAmount else if ship !in s.escrows then EscrowNotFound
                else if s.escrows[ship].status != Created then InvalidTransition else DuplicateJournal)
  {
    if ship in s.escrows {
      CreatedAmount(s, ship);
      FundingPosts(s.log, ship, order, s.escrows[ship].payer, s.escrows[ship].amount);
    }
  }

  /** While shipment ids are free of colons it succeeds exactly in CREATED, whatever the order id. */
  lemma FundSucceeds(s: State, ship: string, order: string)
    requires Reachable(s) && ColonFree(s)
    ensures FundEscrow(s, ship, order).result.Ok? <==>
            ship != "" && order != "" && ship in s.escrows && s.escrows[ship].status == Created
  {
    FundIff(s, ship, order);
    if ship in s.escrows && s.escrows[ship].status == Created {
      FundKeysFree(s, ship, order);
    }
  }

  lemma FundTakesKey(s: State, ship: string, order: string)
    requires Reachable(s) && FundEscrow(s, ship, order).result.Ok?
    ensures (WalletToEscrow, WalletEscrowRef(ship, order)) in Keys(FundEscrow(s, ship, order).state.log)
  {
    CreatedAmount(s, ship);
    var e := s.escrows[ship];
    var p, q := PspLeg(ship, order, e.payer, e.amount), EscrowLeg(ship, order, e.payer, e.amount);
    FundingPosts(s.log, ship, order, e.payer, e.amount);
    KeysAt(s.log + [p], q);
    assert (s.log + [p]) + [q] == s.log + [p, q];
  }

  /** With colons they can be taken: once a shipment b is funded under the order id "c:wallet-pay", the CREATED escrow of the
      shipment "b:wallet-escrow:c" is refused as a duplicate although its payer's wallet covers it. */
  lemma ColonsCollide(s: State, b: string, c: string, payer: string, amount: int64)
    requires Reachable(s) && FundEscrow(s, b, c + ":wallet-pay").result.Ok?
    requires var t := FundEscrow(s, b, c + ":wallet-pay").state;
             && Payable(t, b + ":wallet-escrow:" + c, payer, amount) && amount > 0
             && Affords(t.log, payer, amount) && Net(t.log, Of(Promo(payer))) == 0
    ensures var t := FundEscrow(s, b, c + ":wallet-pay").state;
            PayFromWallet(t, b + ":wallet-escrow:" + c, payer, amount) == Refuse(t, DuplicateJournal)
  {
    FundTakesKey(s, b, c + ":wallet-pay");
    WalletPayCollision(b, c);
    PayOutcome(FundEscrow(s, b, c + ":wallet-pay").state, b + ":wallet-escrow:" + c, payer, amount);
  }

  // ---- orders ----------------------------------------------------------------------------------

  /** A pending topup that the provider verifies for its amount is always credited. */
  lemma VerifyTopupSucceeds(s: State, id: string, reply: int64)
    requires Reachable(s) && id in s.orders && s.orders[id].purpose == TopUp && s.orders[id].status == Pending
    ensures VerifyOrder(s, id, Some(TopUp), Some(reply), true).result.Ok? <==> reply == s.orders[id].amount
  {
    ReachableGood(s);
    assert OrderOk(s, id, s.orders[id]) && TopupKey(s, id);
    TransferSound(WalletTopup, TopupRef(id), PspClearing, Wallet(s.orders[id].payer), s.orders[id].amount);
  }

  /** A pending shipment order confirms exactly when it is verified for its amount and its escrow is still CREATED. */
  lemma VerifyShipmentSucceeds(s: State, id: string, reply: int64)
    requires Reachable(s) && ColonFree(s) && id != "" && id in s.orders
    requires s.orders[id].purpose == Shipment && s.orders[id].status == Pending && s.orders[id].shipmentId != ""
    ensures s.orders[id].shipmentId in s.escrows
    ensures VerifyOrder(s, id, Some(Shipment), Some(reply), true).result.Ok? <==>
            reply == s.orders[id].amount && s.escrows[s.orders[id].shipmentId].status == Created
  {
    ReachableGood(s);
    assert OrderOk(s, id, s.orders[id]);
    FundSucceeds(s, s.orders[id].shipmentId, id);
  }

  lemma {:induction false} FinalAfter(s: State, cs: seq<Command>, id: string)
    requires Reachable(s) && id in s.orders && s.orders[id].status != Pending
    ensures Reachable(Run(s, cs)) && id in Run(s, cs).orders && Run(s, cs).orders[id] == s.orders[id]
  {
    if cs != [] {
      FinalAfter(s, cs[..|cs| - 1], id);
      OrderLifecycle(Run(s, cs[..|cs| - 1]), cs[|cs| - 1], id);
      ReachableNext(Run(s, cs[..|cs| - 1]), cs[|cs| - 1]);
    }
  }

  /** Once an order has been verified, verifying it again after any further run of use cases answers the same row and changes
      nothing, whatever the provider and the database say then. */
  lemma VerifyAgain(s: State, id: string, reply: Option<int64>, commits: bool, cs: seq<Command>, again: Option<int64>,
                    commitsAgain: bool)
    requires Reachable(s) && VerifyOrder(s, id, None, reply, commits).result.Ok?
    ensures var once := VerifyOrder(s, id, None, reply, commits);
            VerifyOrder(Run(once.state, cs), id, None, again, commitsAgain) == Done(Run(once.state, cs), once.result)
  {
    ReachableNext(s, Command(DoVerifyOrder(id, None, reply), commits));
    FinalAfter(VerifyOrder(s, id, None, reply, commits).state, cs, id);
  }

  // ---- withdrawals and grants ------------------------------------------------------------------

  lemma ReservePosts(s: State, id: string, user: string, amount: int)
    requires Reachable(s) && id !in s.withdrawals && amount > 0
    ensures Post(s.log, ReserveJournal(id, user, amount)).Ok?
  {
    ReachableGood(s);
    assert WithdrawalKeys(s, id);
    TransferSound(WithdrawalReserve, ReserveRef(id), Wallet(user), PayoutClearing, amount);
  }

  /** A withdrawal is accepted exactly when its gates are open and the wallet can be read and covers it. */
  lemma WithdrawalSucceeds(s: State, id: Uuid, user: string, amount: int64, iban: string, active: bool, kyc: bool)
    requires Reachable(s)
    ensures CreateWithdrawal(s, id, user, amount, iban, active, kyc).result.Ok? <==>
            && user != "" && iban != "" && active && kyc && id !in s.withdrawals
            && Readable(s.log, Wallet(user)) && 0 < amount <= Net(s.log, Of(Wallet(user)))
    ensures CreateWithdrawal(s, id, user, amount, iban, active, kyc).result.Err? ==>
              CreateWithdrawal(s, id, user, amount, iban, active, kyc) == Refuse(s,
                if user == "" || amount <= 0 || iban == "" then WithdrawalInvalidInput
                else if !active then UserInactive else if !kyc then KycNotApproved
                else if !Readable(s.log, Wallet(user)) then SumOverflow
                else if Net(s.log, Of(Wallet(user))) < amount then InsufficientWallet else DuplicateId)
  {
    if amount > 0 && id !in s.withdrawals {
      ReservePosts(s, id, user, amount);
    }
  }

  /** Failing and rejecting a withdrawal depend on its status alone: the reversal is never a duplicate. */
  lemma ReversalSucceeds(s: State, id: string, reason: string)
    requires Reachable(s)
    ensures FailWithdrawal(s, id, reason).result.Ok? <==>
            id != "" && reason != "" && id in s.withdrawals && s.withdrawals[id].status in {Approved, SentToBank}
    ensures RejectWithdrawal(s, id).result.Ok? <==> id != "" && id in s.withdrawals && s.withdrawals[id].status == WPending
    ensures var failed, rejected := FailWithdrawal(s, id, reason), RejectWithdrawal(s, id);
            var why := if id !in s.withdrawals then WithdrawalNotFound else InvalidTransition;
            && (failed.result.Err? ==> failed == Refuse(s, if id == "" || reason == "" then WithdrawalInvalidInput else why))
            && (rejected.result.Err? ==> rejected == Refuse(s, if id == "" then WithdrawalInvalidInput else why))
  {
    if id in s.withdrawals {
      ReachableGood(s);
      assert WithdrawalKeys(s, id);
      var w := s.withdrawals[id];
      TransferSound(WithdrawalRejectReversal, FailRef(id), PayoutClearing, Wallet(w.user), w.amount);
      TransferSound(WithdrawalRejectReversal, RejectRef(id), PayoutClearing, Wallet(w.user), w.amount);
    }
  }

  /** A reversal of a grant depends on its status alone, not on what the user has spent since. */
  lemma ReverseSucceeds(s: State, id: string, reason: string, admin: string)
    requires Reachable(s)
    ensures ReverseCreditGrant(s, id, reason, admin).result.Ok? <==>
            id != "" && reason != "" && admin != "" && id in s.grants && s.grants[id].status == Active
    ensures ReverseCreditGrant(s, id, reason, admin).result.Err? ==>
              ReverseCreditGrant(s, id, reason, admin) == Refuse(s,
                if id == "" || reason == "" || admin == "" then CreditInvalidInput
                else if id !in s.grants then GrantNotFound else AlreadyReversed)
  {
    ReachableGood(s);
    GrantKeysIn(s, id);
    if id in s.grants && s.grants[id].status == Active {
      ReversePosts(s, id);
    }
  }

  lemma {:induction false} ReversedAfterAll(s: State, cs: seq<Command>, id: string)
    requires Reachable(s) && id in s.grants && s.grants[id].status == Reversed
    ensures Reachable(Run(s, cs)) && id in Run(s, cs).grants && Run(s, cs).grants[id].status == Reversed
  {
    if cs != [] {
      var t, c := Run(s, cs[..|cs| - 1]), cs[|cs| - 1];
      ReversedAfterAll(s, cs[..|cs| - 1], id);
      ReachableGood(t);
      var m := ExecuteStep(t, c);
      GrantAfter(t, m, id);
      ReachableNext(t, c);
    }
  }

  /** Of any number of reversals that have all read the grant as active, one marks the row and posts; the others, after any
      further run of use cases, are refused and change nothing. */
  lemma ReversedOnce(s: State, id: string, cs: seq<Command>, g: GrantRow)
    requires Reachable(s) && id != "" && id in s.grants && ReverseLoaded(s, id, s.grants[id]).result.Ok?
    ensures var t := Run(ReverseLoaded(s, id, s.grants[id]).state, cs);
            ReverseLoaded(t, id, g) == Done(t, Err(AlreadyReversed))
  {
    var c := Command(DoReverseCreditGrant(id, "reason", "admin"), true);
    ReachableNext(s, c);
    ExecuteReversal(s, c);
    ReversedAfterAll(ReverseLoaded(s, id, s.grants[id]).state, cs, id);
  }

  // ---- when a promo balance falls below zero ---------------------------------------------------

  /** The call reverses this user's active grant, and commits. */
  predicate Reverses(s: State, c: Command, user: string) {
    && c.commits && c.useCase.DoReverseCreditGrant?
    && c.useCase.id != "" && c.useCase.reason != "" && c.useCase.reversedBy != ""
    && c.useCase.id in s.grants && s.grants[c.useCase.id].status == Active && s.grants[c.useCase.id].user == user
  }

  lemma ReversalTakes(s: State, c: Command, user: string)
    requires Reachable(s) && Reverses(s, c, user)
    ensures Net(Execute(s, c).state.log, Of(Promo(user))) == Net(s.log, Of(Promo(user))) - s.grants[c.useCase.id].amount
  {
    var id := c.useCase.id;
    ReachableGood(s);
    GrantKeysIn(s, id);
    ExecuteReversal(s, c);
    ReversePosts(s, id);
    TransferNet(s.log, PromoCreditReverse, ReverseRef(id), Promo(user), PromoExpense, s.grants[id].amount, Promo(user));
  }

  /** Whatever takes the balance below zero is a committed reversal of more than there is. */
  lemma OnlyReversals(s: State, c: Command, m: Move, user: string)
    requires Good(s) && Executes(s, c, m) && Net(s.log, Of(Promo(user))) >= 0
    requires Net(Apply(s, m).log, Of(Promo(user))) < 0
    ensures Reverses(s, c, user) && s.grants[c.useCase.id].amount > Net(s.log, Of(Promo(user)))
  {
    EffectSound(s, m);
    EffectNet(s.log, EffectOf(s, m), Promo(user));
    PromoFalls(s, m, user);
    if c.useCase.id == "" || c.useCase.reason == "" || c.useCase.reversedBy == "" {
      ExecuteReversal(s, c);
    }
  }

  /** Exactly when a call takes a user's promo balance below zero: when it commits a reversal of an active grant of theirs
      for more than the balance. */
  lemma PromoGoesNegativeIff(s: State, c: Command, user: string)
    requires Reachable(s) && Net(s.log, Of(Promo(user))) >= 0
    ensures Net(Execute(s, c).state.log, Of(Promo(user))) < 0 <==>
            && c.commits && c.useCase.DoReverseCreditGrant?
            && c.useCase.id != "" && c.useCase.reason != "" && c.useCase.reversedBy != ""
            && c.useCase.id in s.grants && s.grants[c.useCase.id].status == Active
            && s.grants[c.useCase.id].user == user
            && s.grants[c.useCase.id].amount > Net(s.log, Of(Promo(user)))
  {
    if Reverses(s, c, user) {
      ReversalTakes(s, c, user);
    }
    if Net(Execute(s, c).state.log, Of(Promo(user))) < 0 {
      ReachableGood(s);
      var m := ExecuteStep(s, c);
      OnlyReversals(s, c, m, user);
    }
  }
}
