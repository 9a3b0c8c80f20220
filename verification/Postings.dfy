/** The journals the use cases post, built from their inputs, and the promo-first money split behind them. */
module Postings {
  import opened Results
  import opened Int64
  import opened Accounts
  import opened Refs
  import opened Ledger

  /** A two-line journal that debits one account and credits another by the same amount. */
  function Transfer(rt: RefType, ref: string, debited: Account, credited: Account, amount: int): Journal {
    Journal(rt, ref, [Line(debited, amount, 0), Line(credited, 0, amount)])
  }

  function PspLeg(ship: string, order: string, payer: string, amount: int): Journal {
    Transfer(PspToWallet, PspWalletRef(ship, order), PspClearing, Wallet(payer), amount)
  }

  function EscrowLeg(ship: string, order: string, payer: string, amount: int): Journal {
    Transfer(WalletToEscrow, WalletEscrowRef(ship, order), Wallet(payer), Escrow(ship), amount)
  }

  function RefundPromoLeg(ship: string, payer: string, amount: int): Journal
    requires amount >= 0
  {
    Transfer(EscrowRefundPromoCredit, RefundPromoRef(ship, amount), Escrow(ship), Promo(payer), amount)
  }

  function RefundWalletLeg(ship: string, payer: string, amount: int): Journal
    requires amount >= 0
  {
    Transfer(EscrowRefundWallet, RefundWalletRef(ship, amount), Escrow(ship), Wallet(payer), amount)
  }

  function ReleaseJournal(ship: string, carrier: string, balance: int, fee: int, carrierAmount: int): Journal {
    Journal(EscrowRelease, ReleaseRef(ship),
            [Line(Escrow(ship), balance, 0), Line(FeeRevenue, 0, fee), Line(Wallet(carrier), 0, carrierAmount)])
  }

  function TopupJournal(order: string, payer: string, amount: int): Journal {
    Transfer(WalletTopup, TopupRef(order), PspClearing, Wallet(payer), amount)
  }

  function ReserveJournal(id: string, user: string, amount: int): Journal {
    Transfer(WithdrawalReserve, ReserveRef(id), Wallet(user), PayoutClearing, amount)
  }

  function FailReversal(id: string, user: string, amount: int): Journal {
    Transfer(WithdrawalRejectReversal, FailRef(id), PayoutClearing, Wallet(user), amount)
  }

  function RejectReversal(id: string, user: string, amount: int): Journal {
    Transfer(WithdrawalRejectReversal, RejectRef(id), PayoutClearing, Wallet(user), amount)
  }

  function GrantJournal(id: string, user: string, amount: int): Journal {
    Transfer(PromoCreditGrant, id, PromoExpense, Promo(user), amount)
  }

  function ReverseJournal(id: string, user: string, amount: int): Journal {
    Transfer(PromoCreditReverse, ReverseRef(id), Promo(user), PromoExpense, amount)
  }

  // ---- payer funding ---------------------------------------------------------------------------

  datatype Split = Split(promoCredit: int, wallet: int) {
    function Total(): int64 {
      Add(promoCredit, wallet)
    }
  }

  /** Promo first, wallet for the rest, in int64 arithmetic. */
  function ResolvePayerFundingSplit(amount: int64, promoBalance: int64, walletBalance: int64): Result<Split> {
    if amount <= 0 then Err(InvalidAmount)
    else
      var promoUsed: int64 := if promoBalance > amount then amount else promoBalance;
      var walletNeeded := Sub(amount, promoUsed);
      if walletBalance < walletNeeded then Err(InsufficientPayerFunds)
      else Ok(Split(promoUsed, walletNeeded))
  }

  function EscrowPayLines(payer: string, ship: string, split: Split, total: int): seq<Line> {
    (if split.promoCredit > 0 then [Line(Promo(payer), split.promoCredit, 0)] else [])
    + (if split.wallet > 0 then [Line(Wallet(payer), split.wallet, 0)] else [])
    + [Line(Escrow(ship), 0, total)]
  }

  function RefTypeForEscrowPay(split: Split): RefType {
    if split.promoCredit > 0 then PromoCreditToEscrow else WalletToEscrow
  }

  function PayJournal(payer: string, ship: string, split: Split, total: int): Journal {
    Journal(RefTypeForEscrowPay(split), WalletPayRef(ship), EscrowPayLines(payer, ship, split, total))
  }

  /** A refund of an escrow goes back to promo credit first, then to the wallet. */
  function RefundAllocation(refundAmount: int, promoCreditRemaining: int): (int, int) {
    if refundAmount <= 0 || promoCreditRemaining <= 0 then (0, refundAmount)
    else
      var promoRefund := if refundAmount > promoCreditRemaining then promoCreditRemaining else refundAmount;
      (promoRefund, refundAmount - promoRefund)
  }

  function RefundJournals(payer: string, ship: string, promoRefund: int, walletRefund: int): seq<Journal> {
    (if promoRefund > 0 then [RefundPromoLeg(ship, payer, promoRefund)] else [])
    + (if walletRefund > 0 then [RefundWalletLeg(ship, payer, walletRefund)] else [])
  }

  // ---- what the journals do --------------------------------------------------------------------

  /** A positive transfer is valid and moves its amount from the one account to the other. */
  lemma TransferSound(rt: RefType, ref: string, debited: Account, credited: Account, amount: int)
    ensures var j := Transfer(rt, ref, debited, credited, amount);
            && Verdict(j.lines) == (if amount > 0 then None else Some(InvalidEntry))
            && (amount > 0 ==> Balanced(j.lines))
            && (forall sel :: Flow(j.lines, sel) ==
                  (if Selects(sel, credited) then amount else 0) - (if Selects(sel, debited) then amount else 0))
  {
    var j := Transfer(rt, ref, debited, credited, amount);
    TwoLines(j.lines[0], j.lines[1]);
    if amount <= 0 {
      assert !OneSided(j.lines[0]);
    }
  }

  /** A release journal is accepted exactly when the fee is positive and less than the balance. */
  lemma ReleaseSound(ship: string, carrier: string, balance: int, fee: int)
    requires 0 < balance && 0 <= fee <= balance
    ensures var j := ReleaseJournal(ship, carrier, balance, fee, balance - fee);
            && Verdict(j.lines) == (if 0 < fee < balance then None else Some(InvalidEntry))
            && (0 < fee < balance ==> Balanced(j.lines))
            && (forall sel :: Flow(j.lines, sel) ==
                  (if Selects(sel, FeeRevenue) then fee else 0)
                  + (if Selects(sel, Wallet(carrier)) then balance - fee else 0)
                  - (if Selects(sel, Escrow(ship)) then balance else 0))
  {
    var j := ReleaseJournal(ship, carrier, balance, fee, balance - fee);
    ThreeLines(j.lines[0], j.lines[1], j.lines[2]);
    if fee == 0 {
      assert !OneSided(j.lines[1]);
    } else if fee == balance {
      assert !OneSided(j.lines[2]);
    }
  }

  /** The sums of a payment journal, for any split. */
  lemma PayLinesSums(payer: string, ship: string, split: Split, total: int)
    ensures var ls := EscrowPayLines(payer, ship, split, total);
            && (forall sel :: Debit(ls, sel) ==
                  (if split.promoCredit > 0 && Selects(sel, Promo(payer)) then split.promoCredit else 0)
                  + (if split.wallet > 0 && Selects(sel, Wallet(payer)) then split.wallet else 0))
            && (forall sel :: Credit(ls, sel) == if Selects(sel, Escrow(ship)) then total else 0)
  {
    var ls := EscrowPayLines(payer, ship, split, total);
    var p, w, e := Line(Promo(payer), split.promoCredit, 0), Line(Wallet(payer), split.wallet, 0), Line(Escrow(ship), 0, total);
    if split.promoCredit > 0 && split.wallet > 0 {
      assert ls == [p, w, e];
      ThreeLines(p, w, e);
    } else if split.promoCredit > 0 {
      assert ls == [p, e];
      TwoLines(p, e);
    } else if split.wallet > 0 {
      assert ls == [w, e];
      TwoLines(w, e);
    } else {
      assert ls == [e];
      OneLine(e);
    }
  }

  /** Paying an escrow resolves and validates exactly when the promo balance is not negative and the wallet
      covers what promo does not. A negative promo balance is always refused, even where the split wraps. */
  lemma PaymentAccepted(amount: int64, promoBalance: int64, walletBalance: int64, payer: string, ship: string)
    requires 0 < amount && -MAX <= promoBalance && -MAX <= walletBalance
    ensures var split := ResolvePayerFundingSplit(amount, promoBalance, walletBalance);
            var used := if promoBalance > amount then amount else promoBalance;
            && (split.Ok? && Verdict(EscrowPayLines(payer, ship, split.value, split.value.Total())) == None
                <==> promoBalance >= 0 && walletBalance >= amount - used)
            && (promoBalance >= 0 && walletBalance >= amount - used ==>
                  && split == Ok(Split(used, amount - used))
                  && split.value.Total() == amount
                  && Balanced(EscrowPayLines(payer, ship, split.value, split.value.Total())))
            && (promoBalance < 0 ==>
                  (split == Err(InsufficientPayerFunds)
                   || (split.Ok? && Verdict(EscrowPayLines(payer, ship, split.value, split.value.Total())) == Some(UnbalancedJournal))))
  {
    var split := ResolvePayerFundingSplit(amount, promoBalance, walletBalance);
    if split.Ok? {
      var ls := EscrowPayLines(payer, ship, split.value, split.value.Total());
      PayLinesSums(payer, ship, split.value, split.value.Total());
      if promoBalance < 0 {
        WrapAdd(amount - promoBalance, promoBalance);
        assert split.value.Total() == amount;
        assert forall i :: 0 <= i < |ls| ==> OneSided(ls[i]);
      }
    }
  }

  lemma PostAllOne(log: Log, j: Journal)
    ensures PostAll(log, [j]) == Post(log, j)
  {}

  /** Refund journals are valid when their amounts are in range, and give the payer exactly those amounts. */
  lemma RefundPostsBoth(log: Log, payer: string, ship: string, promoRefund: int, walletRefund: int)
    requires promoRefund >= 0 && walletRefund >= 0
    ensures var js := RefundJournals(payer, ship, promoRefund, walletRefund);
            PostAll(log, js) ==
            if promoRefund > 0 && (EscrowRefundPromoCredit, RefundPromoRef(ship, promoRefund)) in Keys(log) then Err(DuplicateJournal)
            else if walletRefund > 0 && (EscrowRefundWallet, RefundWalletRef(ship, walletRefund)) in Keys(log) then Err(DuplicateJournal)
            else Ok(log + js)
  {
    var js := RefundJournals(payer, ship, promoRefund, walletRefund);
    if promoRefund > 0 {
      TransferSound(EscrowRefundPromoCredit, RefundPromoRef(ship, promoRefund), Escrow(ship), Promo(payer), promoRefund);
      Append(log, RefundPromoLeg(ship, payer, promoRefund));
    }
    if walletRefund > 0 {
      TransferSound(EscrowRefundWallet, RefundWalletRef(ship, walletRefund), Escrow(ship), Wallet(payer), walletRefund);
    }
    if promoRefund > 0 && walletRefund > 0 {
      var p, w := RefundPromoLeg(ship, payer, promoRefund), RefundWalletLeg(ship, payer, walletRefund);
      assert js == [p, w] && js[1..] == [w];
      PostAllOne(log + [p], w);
      assert (log + [p]) + [w] == log + js;
    } else if promoRefund > 0 {
      assert js == [RefundPromoLeg(ship, payer, promoRefund)];
      PostAllOne(log, RefundPromoLeg(ship, payer, promoRefund));
    } else if walletRefund > 0 {
      assert js == [RefundWalletLeg(ship, payer, walletRefund)];
      PostAllOne(log, RefundWalletLeg(ship, payer, walletRefund));
    } else {
      assert log + js == log;
    }
  }

  function Sum(amounts: seq<int>): int {
    if amounts == [] then 0 else Sum(amounts[..|amounts| - 1]) + amounts[|amounts| - 1]
  }
}
