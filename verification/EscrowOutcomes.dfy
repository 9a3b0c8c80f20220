/** What the escrow use cases leave behind when they succeed: the row they write, the accounts they change, and nothing else. */
module EscrowOutcomes {
  import opened Results
  import opened Int64
  import opened Accounts
  import opened Ledger
  import opened Postings
  import opened Domain
  import opened Machine
  import opened Effects
  import opened Moves
  import opened Steps
  import opened Guarantees
  import opened Success

  // ---- escrows ---------------------------------------------------------------------------------

  /** Just this escrow row was written, and given as the answer. */
  predicate WroteEscrow(s: State, d: Done<EscrowRow>, ship: string, row: EscrowRow) {
    d == Done(s.(log := d.state.log, escrows := s.escrows[ship := row]), Ok(row))
  }

  /** An escrow is opened exactly once for its shipment, as CREATED and with nothing paid in. */
  lemma EscrowOpens(s: State, ship: string, carrier: string, payer: string, amount: int64)
    requires Reachable(s)
    ensures var d := CreateEscrow(s, ship, carrier, payer, amount);
            if ship != "" && carrier != "" && payer != "" && amount > 0 && ship !in s.escrows
            then
              && WroteEscrow(s, d, ship, EscrowRow(carrier, payer, amount, Created, "", NoSource, 0))
              && d.state.log == s.log && Net(d.state.log, Of(Escrow(ship))) == 0
            else d == Refuse(s, if ship in s.escrows && carrier != "" && payer != "" && amount > 0 && ship != ""
                                then DuplicateShipment else InvalidAmount)
  {
    StatusFixesBalance(s, ship);
  }

  /** A delivery is accepted exactly in FUNDED; the escrow, which still holds its whole amount, then awaits disputes. */
  lemma DeliveryOpensWindow(s: State, ship: string)
    requires Reachable(s)
    ensures var d := MarkDelivered(s, ship);
            if ship != "" && ship in s.escrows && s.escrows[ship].status == Funded
            then
              && WroteEscrow(s, d, ship, s.escrows[ship].(status := DisputeWindow))
              && d.state.log == s.log && Net(s.log, Of(Escrow(ship))) == s.escrows[ship].amount
            else d == Refuse(s, if ship == "" then InvalidAmount else if ship !in s.escrows then EscrowNotFound else InvalidTransition)
  {
    StatusFixesBalance(s, ship);
  }

  /** A dispute freezes an escrow exactly in its dispute window (or LOCKED, which does not occur). */
  lemma DisputeFreezes(s: State, ship: string)
    requires Reachable(s)
    ensures var d := FreezeEscrow(s, ship);
            if ship != "" && ship in s.escrows && s.escrows[ship].status in {DisputeWindow, Locked}
            then
              && WroteEscrow(s, d, ship, s.escrows[ship].(status := Frozen))
              && d.state.log == s.log && Net(s.log, Of(Escrow(ship))) == s.escrows[ship].amount
            else d == Refuse(s, if ship == "" then InvalidAmount else if ship !in s.escrows then EscrowNotFound else InvalidTransition)
  {
    StatusFixesBalance(s, ship);
  }

  /** Promo credit up to the amount. */
  function PromoUsed(log: Log, payer: string, amount: int): int {
    if Net(log, Of(Promo(payer))) < amount then Net(log, Of(Promo(payer))) else amount
  }

  lemma PaidSplit(s: State, ship: string, payer: string, amount: int64)
    requires PayFromWallet(s, ship, payer, amount).result.Ok?
    ensures var used, d := PromoUsed(s.log, payer, amount), PayFromWallet(s, ship, payer, amount);
            && ship in s.escrows && 0 <= used <= amount && amount > 0
            && WroteEscrow(s, d, ship, PaidWith(s.escrows[ship], used, amount - used))
            && d.state.log == s.log + [PayJournal(payer, ship, Split(used, amount - used), amount)]
  {
    var promo, wallet := Balance(s.log, Of(Promo(payer))), Balance(s.log, Of(Wallet(payer)));
    PaymentAccepted(amount, promo.value, wallet.value, payer, ship);
  }

  lemma PayJournalMoves(log: Log, payer: string, ship: string, promo: int, wallet: int, a: Account)
    requires promo >= 0 && wallet >= 0 && promo + wallet > 0
    ensures Net(log + [PayJournal(payer, ship, Split(promo, wallet), promo + wallet)], Of(a)) == Net(log, Of(a)) +
              if a == Promo(payer) then -promo
              else if a == Wallet(payer) then -wallet
              else if a == Escrow(ship) then promo + wallet
              else 0
  {
    NetAt(log, PayJournal(payer, ship, Split(promo, wallet), promo + wallet), Of(a));
    PayLinesSums(payer, ship, Split(promo, wallet), promo + wallet);
  }

  lemma PaidRow(e: EscrowRow, used: int, amount: int)
    requires 0 <= used <= amount && amount > 0
    ensures PaidWith(e, used, amount - used) ==
            e.(status := Funded, promoCreditFunded := used,
               source := if used == 0 then FromWallet else if used == amount then FromPromoCredit else Mixed)
  {}

  lemma PaymentMoves(log: Log, payer: string, ship: string, used: int, amount: int)
    requires 0 <= used <= amount && amount > 0
    ensures forall a :: Net(log + [PayJournal(payer, ship, Split(used, amount - used), amount)], Of(a)) == Net(log, Of(a)) +
              if a == Promo(payer) then -used
              else if a == Wallet(payer) then used - amount
              else if a == Escrow(ship) then amount
              else 0
  {
    forall a {
      PayJournalMoves(log, payer, ship, used, amount - used, a);
    }
  }

  /** The amount has gone into the escrow, this much of it from promo credit and the rest from the wallet, and the row says so. */
  ghost predicate PaidFrom(s: State, d: Done<EscrowRow>, ship: string, payer: string, promo: int, amount: int)
    requires ship in s.escrows
  {
    && WroteEscrow(s, d, ship, s.escrows[ship].(
         status := Funded, promoCreditFunded := promo,
         source := if promo == 0 then FromWallet else if promo == amount then FromPromoCredit else Mixed))
    && (forall a :: Net(d.state.log, Of(a)) == Net(s.log, Of(a)) +
          if a == Promo(payer) then -promo
          else if a == Wallet(payer) then promo - amount
          else if a == Escrow(ship) then amount
          else 0)
  }

  lemma SplitPays(s: State, d: Done<EscrowRow>, ship: string, payer: string, used: int, amount: int)
    requires ship in s.escrows && 0 <= used <= amount && amount > 0
    requires WroteEscrow(s, d, ship, PaidWith(s.escrows[ship], used, amount - used))
    requires d.state.log == s.log + [PayJournal(payer, ship, Split(used, amount - used), amount)]
    ensures PaidFrom(s, d, ship, payer, used, amount)
  {
    PaidRow(s.escrows[ship], used, amount);
    PaymentMoves(s.log, payer, ship, used, amount);
  }

  /** An accepted payment spends the payer's promo credit first, up to the amount, and only the rest from the wallet. */
  lemma PaymentSpendsPromoFirst(s: State, ship: string, payer: string, amount: int64)
    requires PayFromWallet(s, ship, payer, amount).result.Ok?
    ensures ship in s.escrows
    ensures var promo := Net(s.log, Of(Promo(payer)));
            PaidFrom(s, PayFromWallet(s, ship, payer, amount), ship, payer, if promo < amount then promo else amount, amount)
  {
    PaidSplit(s, ship, payer, amount);
    SplitPays(s, PayFromWallet(s, ship, payer, amount), ship, payer, PromoUsed(s.log, payer, amount), amount);
  }

  lemma FundingMoves(log: Log, ship: string, order: string, payer: string, amount: int, a: Account)
    requires amount > 0
    ensures Net(log + [PspLeg(ship, order, payer, amount), EscrowLeg(ship, order, payer, amount)], Of(a)) == Net(log, Of(a)) +
              if a == PspClearing then -amount else if a == Escrow(ship) then amount else 0
  {
    EffectNet(log, FundIn(ship, order, payer, amount), a);
  }

  lemma FundedIs(s: State, ship: string, order: string)
    requires Reachable(s) && FundEscrow(s, ship, order).result.Ok?
    ensures ship in s.escrows && s.escrows[ship].amount > 0
    ensures var e, d := s.escrows[ship], FundEscrow(s, ship, order);
            && WroteEscrow(s, d, ship, e.(status := Funded, paymentOrderId := order, source := FromPsp))
            && d.state.log == s.log + [PspLeg(ship, order, e.payer, e.amount), EscrowLeg(ship, order, e.payer, e.amount)]
  {
    CreatedAmount(s, ship);
    FundingPosts(s.log, ship, order, s.escrows[ship].payer, s.escrows[ship].amount);
  }

  /** Funding from the provider takes the amount from PSP clearing into the escrow and leaves the payer's wallet as it was; the
      row names the order. */
  lemma FundingPassesThrough(s: State, ship: string, order: string)
    requires Reachable(s) && FundEscrow(s, ship, order).result.Ok?
    ensures ship in s.escrows
    ensures var e, d := s.escrows[ship], FundEscrow(s, ship, order);
            && WroteEscrow(s, d, ship, e.(status := Funded, paymentOrderId := order, source := FromPsp))
            && (forall a :: Net(d.state.log, Of(a)) == Net(s.log, Of(a)) +
                  if a == PspClearing then -e.amount else if a == Escrow(ship) then e.amount else 0)
  {
    FundedIs(s, ship, order);
    forall a {
      FundingMoves(s.log, ship, order, s.escrows[ship].payer, s.escrows[ship].amount, a);
    }
  }

  lemma ReleasedIs(s: State, ship: string, feeProduct: int64)
    requires Reachable(s) && ReleaseEscrow(s, ship, feeProduct).result.Ok?
    ensures ship in s.escrows && 0 < feeProduct < Net(s.log, Of(Escrow(ship)))
    ensures var d, balance := ReleaseEscrow(s, ship, feeProduct), Net(s.log, Of(Escrow(ship)));
            && WroteEscrow(s, d, ship, s.escrows[ship].(status := Released))
            && d.state.log == s.log + [ReleaseJournal(ship, s.escrows[ship].carrier, balance, feeProduct, balance - feeProduct)]
  {
    ReleaseSucceeds(s, ship, feeProduct);
    StatusFixesBalance(s, ship);
  }

  lemma ReleaseMoves(log: Log, ship: string, carrier: string, balance: int, fee: int, a: Account)
    requires 0 < fee < balance
    ensures Net(log + [ReleaseJournal(ship, carrier, balance, fee, balance - fee)], Of(a)) == Net(log, Of(a)) +
              if a == FeeRevenue then fee
              else if a == Wallet(carrier) then balance - fee
              else if a == Escrow(ship) then -balance
              else 0
  {
    NetAt(log, ReleaseJournal(ship, carrier, balance, fee, balance - fee), Of(a));
    ReleaseSound(ship, carrier, balance, fee);
  }

  /** A release gives the fee to the platform, the rest of the balance to the carrier, and leaves the escrow empty. */
  lemma ReleasePaysCarrier(s: State, ship: string, feeProduct: int64)
    requires Reachable(s) && ReleaseEscrow(s, ship, feeProduct).result.Ok?
    ensures ship in s.escrows
    ensures var d, balance := ReleaseEscrow(s, ship, feeProduct), Net(s.log, Of(Escrow(ship)));
            && WroteEscrow(s, d, ship, s.escrows[ship].(status := Released))
            && (forall a :: Net(d.state.log, Of(a)) == Net(s.log, Of(a)) +
                  if a == FeeRevenue then feeProduct
                  else if a == Wallet(s.escrows[ship].carrier) then balance - feeProduct
                  else if a == Escrow(ship) then -balance
                  else 0)
  {
    ReleasedIs(s, ship, feeProduct);
    forall a {
      ReleaseMoves(s.log, ship, s.escrows[ship].carrier, Net(s.log, Of(Escrow(ship))), feeProduct, a);
    }
  }

  lemma BackMoves(log: Log, payer: string, ship: string, promo: int, wallet: int, a: Account)
    requires promo >= 0 && wallet >= 0 && promo + wallet > 0
    ensures Net(log + RefundJournals(payer, ship, promo, wallet), Of(a)) == Net(log, Of(a)) +
              if a == Promo(payer) then promo
              else if a == Wallet(payer) then wallet
              else if a == Escrow(ship) then -(promo + wallet)
              else 0
  {
    EffectNet(log, PayBack(ship, payer, promo, wallet), a);
  }

  /** What a refund computes, when its numbers are in range. */
  lemma RefundIs(s: State, ship: string, e: EscrowRow, balance: int, refund: int)
    requires 0 <= e.promoCreditFunded <= MAX && 0 < refund && PayRefund(s, ship, e, balance, refund).result.Ok?
    ensures var d, p := PayRefund(s, ship, e, balance, refund), PromoPart(e, refund);
            && 0 <= p <= refund
            && WroteEscrow(s, d, ship, e.(promoCreditFunded := e.promoCreditFunded - p,
                                          status := if refund == balance then Refunded else PartiallyRefunded))
            && d.state.log == s.log + RefundJournals(e.payer, ship, p, refund - p)
  {
    var p := PromoPart(e, refund);
    RefundPostsBoth(s.log, e.payer, ship, p, refund - p);
  }

  lemma CounterWithinBalance(s: State, ship: string)
    requires Reachable(s) && ship in s.escrows && s.escrows[ship].status != Released
    ensures 0 <= s.escrows[ship].promoCreditFunded <= Net(s.log, Of(Escrow(ship))) <= MAX
    ensures Balance(s.log, Of(Escrow(ship))) == Ok(Net(s.log, Of(Escrow(ship))))
  {
    EscrowReadable(s, ship);
    StatusFixesBalance(s, ship);
  }

  lemma BackMovesAll(log: Log, payer: string, ship: string, promo: int, refund: int)
    requires 0 <= promo <= refund && refund > 0
    ensures forall a :: Net(log + RefundJournals(payer, ship, promo, refund - promo), Of(a)) == Net(log, Of(a)) +
              if a == Promo(payer) then promo
              else if a == Wallet(payer) then refund - promo
              else if a == Escrow(ship) then -refund
              else 0
  {
    forall a {
      BackMoves(log, payer, ship, promo, refund - promo, a);
    }
  }

  /** The refund has left the escrow, this much of it to the payer's promo credit and the rest to the wallet, and the row counts
      so much less promo credit and has this status. */
  ghost predicate GaveBack(s: State, d: Done<EscrowRow>, ship: string, promo: int, refund: int, status: EscrowStatus)
    requires ship in s.escrows
  {
    var e := s.escrows[ship];
    && WroteEscrow(s, d, ship, e.(promoCreditFunded := e.promoCreditFunded - promo, status := status))
    && (forall a :: Net(d.state.log, Of(a)) == Net(s.log, Of(a)) +
          if a == Promo(e.payer) then promo
          else if a == Wallet(e.payer) then refund - promo
          else if a == Escrow(ship) then -refund
          else 0)
  }

  lemma PayRefundGivesBack(s: State, ship: string, balance: int, refund: int)
    requires ship in s.escrows && 0 <= s.escrows[ship].promoCreditFunded <= MAX && 0 < refund
    requires PayRefund(s, ship, s.escrows[ship], balance, refund).result.Ok?
    ensures GaveBack(s, PayRefund(s, ship, s.escrows[ship], balance, refund), ship, PromoPart(s.escrows[ship], refund), refund,
                     if refund == balance then Refunded else PartiallyRefunded)
  {
    RefundIs(s, ship, s.escrows[ship], balance, refund);
    BackMovesAll(s.log, s.escrows[ship].payer, ship, PromoPart(s.escrows[ship], refund), refund);
  }

  lemma RefundsPay(s: State, ship: string, balance: int)
    requires Balance(s.log, Of(Escrow(ship))) == Ok(balance) && RefundEscrow(s, ship).result.Ok?
    ensures ship in s.escrows && s.escrows[ship].status != Released && balance > 0
    ensures RefundEscrow(s, ship) == PayRefund(s, ship, s.escrows[ship], balance, balance)
  {}

  lemma PartialRefundsPay(s: State, ship: string, balance: int, refund: int64)
    requires Balance(s.log, Of(Escrow(ship))) == Ok(balance) && PartialRefundEscrow(s, ship, refund).result.Ok?
    ensures ship in s.escrows && s.escrows[ship].status != Released && 0 < refund <= balance
    ensures PartialRefundEscrow(s, ship, refund) == PayRefund(s, ship, s.escrows[ship], balance, refund)
  {}

  /** A partial refund gives promo credit back first, as far as the escrow was paid with it, and the rest to the wallet. The
      escrow is REFUNDED when nothing is left in it, and PARTIALLY_REFUNDED otherwise. */
  lemma PartialRefundGivesBack(s: State, ship: string, refund: int64)
    requires Reachable(s) && PartialRefundEscrow(s, ship, refund).result.Ok?
    ensures ship in s.escrows
    ensures var counted := s.escrows[ship].promoCreditFunded;
            GaveBack(s, PartialRefundEscrow(s, ship, refund), ship, if refund < counted then refund else counted, refund,
                     if refund == Net(s.log, Of(Escrow(ship))) then Refunded else PartiallyRefunded)
  {
    var balance := Net(s.log, Of(Escrow(ship)));
    EscrowReadable(s, ship);
    PartialRefundsPay(s, ship, balance, refund);
    CounterWithinBalance(s, ship);
    PayRefundGivesBack(s, ship, balance, refund);
  }

  /** A full refund gives back all that is left: to promo credit what it has in the escrow, the rest to the wallet. */
  lemma RefundGivesBack(s: State, ship: string)
    requires Reachable(s) && RefundEscrow(s, ship).result.Ok?
    ensures ship in s.escrows
    ensures GaveBack(s, RefundEscrow(s, ship), ship, s.escrows[ship].promoCreditFunded, Net(s.log, Of(Escrow(ship))), Refunded)
  {
    var balance := Net(s.log, Of(Escrow(ship)));
    EscrowReadable(s, ship);
    RefundsPay(s, ship, balance);
    CounterWithinBalance(s, ship);
    PayRefundGivesBack(s, ship, balance, balance);
  }

  // ---- as commands -----------------------------------------------------------------------------

  lemma CommandPerforms(s: State, c: Command)
    requires OnEscrow(c.useCase) && Execute(s, c).result.Ok?
    ensures Execute(s, c) == Perform(s, c.useCase)
  {}

  /** The edge of the lifecycle that an accepted use case takes, and what the escrow holds before and after. */
  ghost predicate TakesEdge(s: State, u: UseCase, t: State)
    requires OnEscrow(u) && u.ship in t.escrows
  {
    var before, after := Net(s.log, Of(Escrow(u.ship))), Net(t.log, Of(Escrow(u.ship)));
    var to := t.escrows[u.ship].status;
    if u.DoCreateEscrow? then u.ship !in s.escrows && to == Created && before == after == 0
    else
      && u.ship in s.escrows
      && var from := s.escrows[u.ship].status;
         match u
         case DoPayFromWallet(_, _, amount) => from == Created && to == Funded && before == 0 && after == amount
         case DoFundEscrow(ship, _) => from == Created && to == Funded && before == 0 && after == s.escrows[ship].amount
         case DoMarkDelivered(_) => from == Funded && to == DisputeWindow && after == before
         case DoFreezeEscrow(_) => from == DisputeWindow && to == Frozen && after == before
         case DoReleaseEscrow(_, _) => from in {DisputeWindow, PartiallyRefunded} && to == Released && after == 0
         case DoRefundEscrow(_) =>
           from in {Funded, DisputeWindow, Frozen, PartiallyRefunded} && to == Refunded && after == 0
         case DoPartialRefundEscrow(_, refund) =>
           && from in {Funded, DisputeWindow, Frozen, PartiallyRefunded}
           && to == (if refund == before then Refunded else PartiallyRefunded) && after == before - refund
  }

  lemma OpeningTakesEdge(s: State, u: UseCase)
    requires Reachable(s) && u.DoCreateEscrow? && Perform(s, u).result.Ok?
    ensures u.ship in Perform(s, u).state.escrows && TakesEdge(s, u, Perform(s, u).state)
  {
    EscrowOpens(s, u.ship, u.carrier, u.payer, u.amount);
    StatusFixesBalance(s, u.ship);
  }

  lemma PaymentTakesEdge(s: State, u: UseCase)
    requires Reachable(s) && u.DoPayFromWallet? && Perform(s, u).result.Ok?
    ensures u.ship in Perform(s, u).state.escrows && TakesEdge(s, u, Perform(s, u).state)
  {
    PayIff(s, u.ship, u.payer, u.amount);
    PaymentSpendsPromoFirst(s, u.ship, u.payer, u.amount);
    StatusFixesBalance(s, u.ship);
  }

  lemma FundingTakesEdge(s: State, u: UseCase)
    requires Reachable(s) && u.DoFundEscrow? && Perform(s, u).result.Ok?
    ensures u.ship in Perform(s, u).state.escrows && TakesEdge(s, u, Perform(s, u).state)
  {
    FundIff(s, u.ship, u.order);
    FundingPassesThrough(s, u.ship, u.order);
    StatusFixesBalance(s, u.ship);
  }

  lemma ReleaseTakesEdge(s: State, u: UseCase)
    requires Reachable(s) && u.DoReleaseEscrow? && Perform(s, u).result.Ok?
    ensures u.ship in Perform(s, u).state.escrows && TakesEdge(s, u, Perform(s, u).state)
  {
    ReleaseSucceeds(s, u.ship, u.feeProduct);
    ReleasePaysCarrier(s, u.ship, u.feeProduct);
  }

  lemma RefundTakesEdge(s: State, u: UseCase)
    requires Reachable(s) && u.DoRefundEscrow? && Perform(s, u).result.Ok?
    ensures u.ship in Perform(s, u).state.escrows && TakesEdge(s, u, Perform(s, u).state)
  {
    RefundSucceeds(s, u.ship);
    RefundGivesBack(s, u.ship);
  }

  lemma PartialRefundTakesEdge(s: State, u: UseCase)
    requires Reachable(s) && u.DoPartialRefundEscrow? && Perform(s, u).result.Ok?
    ensures u.ship in Perform(s, u).state.escrows && TakesEdge(s, u, Perform(s, u).state)
  {
    PartialRefundSucceeds(s, u.ship, u.refund);
    PartialRefundGivesBack(s, u.ship, u.refund);
  }

  /** Every accepted use case of an escrow takes exactly its edge of the lifecycle, with the money that belongs to it. */
  lemma CommandTakesEdge(s: State, c: Command)
    requires Reachable(s) && OnEscrow(c.useCase) && Execute(s, c).result.Ok?
    ensures c.useCase.ship in Execute(s, c).state.escrows && TakesEdge(s, c.useCase, Execute(s, c).state)
  {
    var u := c.useCase;
    CommandPerforms(s, c);
    match u
    case DoCreateEscrow(_, _, _, _) => OpeningTakesEdge(s, u);
    case DoPayFromWallet(_, _, _) => PaymentTakesEdge(s, u);
    case DoFundEscrow(_, _) => FundingTakesEdge(s, u);
    case DoMarkDelivered(ship) => DeliveryOpensWindow(s, ship);
    case DoFreezeEscrow(ship) =>
      DisputeFreezes(s, ship);
      StatusFixesBalance(s, ship);
    case DoReleaseEscrow(_, _) => ReleaseTakesEdge(s, u);
    case DoRefundEscrow(_) => RefundTakesEdge(s, u);
    case DoPartialRefundEscrow(_, _) => PartialRefundTakesEdge(s, u);
  }
}
