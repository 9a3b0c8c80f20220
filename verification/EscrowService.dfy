/** The escrow use cases as they run: read the row, check it, post, write the row, inside one transaction. */
module EscrowService {
  import opened Results
  import opened Int64
  import opened Accounts
  import opened Refs
  import opened Ledger
  import opened Postings
  import opened Domain
  import opened Databases
  import opened LedgerService
  import Machine

  class EscrowUseCases {
    const db: Database
    const ledger: LedgerUseCases

    constructor (db: Database)
      ensures this.db == db && ledger.db == db
    {
      this.db := db;
      ledger := new LedgerUseCases(db);
    }

    // ---- creation and status -------------------------------------------------------------------

    method CreateEscrow(ship: string, carrier: string, payer: string, amount: int64) returns (r: Result<EscrowRow>)
      requires db.Valid()
      modifies db
      ensures Refines(db, r, Machine.CreateEscrow(old(db.State()), ship, carrier, payer, amount))
    {
      if ship == "" || carrier == "" || payer == "" || amount <= 0 {
        return Err(InvalidAmount);
      }
      if ship in db.escrows {
        return Err(DuplicateShipment);
      }
      var escrow := EscrowRow(carrier, payer, amount, Created, "", NoSource, 0);
      db.escrows := db.escrows[ship := escrow];
      return Ok(escrow);
    }

    method MarkDelivered(ship: string) returns (r: Result<EscrowRow>)
      requires db.Valid()
      modifies db
      ensures Refines(db, r, Machine.MarkDelivered(old(db.State()), ship))
    {
      if ship == "" {
        return Err(InvalidAmount);
      }
      if ship !in db.escrows {
        return Err(EscrowNotFound);
      }
      var escrow := db.escrows[ship];
      if !escrow.status.CanMarkDelivered() {
        return Err(InvalidTransition);
      }
      escrow := escrow.(status := DisputeWindow);
      db.escrows := db.escrows[ship := escrow];
      return Ok(escrow);
    }

    method FreezeEscrow(ship: string) returns (r: Result<EscrowRow>)
      requires db.Valid()
      modifies db
      ensures Refines(db, r, Machine.FreezeEscrow(old(db.State()), ship))
    {
      if ship == "" {
        return Err(InvalidAmount);
      }
      if ship !in db.escrows {
        return Err(EscrowNotFound);
      }
      var escrow := db.escrows[ship];
      if !escrow.status.CanFreeze() {
        return Err(InvalidTransition);
      }
      escrow := escrow.(status := Frozen);
      db.escrows := db.escrows[ship := escrow];
      return Ok(escrow);
    }

    // ---- paying and funding --------------------------------------------------------------------

    method BuildEscrowPayJournalLines(payer: string, ship: string, split: Split) returns (lines: seq<Line>)
      ensures lines == EscrowPayLines(payer, ship, split, split.Total())
    {
      lines := [];
      if split.promoCredit > 0 {
        lines := lines + [Line(Promo(payer), split.promoCredit, 0)];
      }
      if split.wallet > 0 {
        lines := lines + [Line(Wallet(payer), split.wallet, 0)];
      }
      lines := lines + [Line(Escrow(ship), 0, split.Total())];
    }

    method PayInTx(ship: string, payer: string, amount: int64) returns (r: Result<EscrowRow>)
      requires db.Valid() && ledger.db == db && ship != "" && payer != "" && amount > 0
      modifies db
      ensures RefinesInTx(db, r, Machine.PayFromWallet(old(db.State()), ship, payer, amount))
    {
      if ship !in db.escrows {
        return Err(EscrowNotFound);
      }
      var escrow := db.escrows[ship];
      if escrow.payer != payer {
        return Err(PayerMismatch);
      }
      if escrow.amount != amount {
        return Err(EscrowAmountMismatch);
      }
      if !escrow.status.CanPayFromWallet() {
        return Err(InvalidTransition);
      }
      var promo :- ledger.AccountBalance(Promo(payer));
      var wallet :- ledger.AccountBalance(Wallet(payer));
      var split :- ResolvePayerFundingSplit(amount, promo, wallet);
      var lines := BuildEscrowPayJournalLines(payer, ship, split);
      var refused := ledger.PostJournal(RefTypeForEscrowPay(split), WalletPayRef(ship), lines);
      if refused.Some? {
        return Err(refused.value);
      }
      escrow := escrow.(status := Funded, source := Machine.FundingSourceForSplit(split), promoCreditFunded := split.promoCredit);
      db.escrows := db.escrows[ship := escrow];
      return Ok(escrow);
    }

    method PayFromWallet(ship: string, payer: string, amount: int64, commits: bool) returns (r: Result<EscrowRow>)
      requires db.Valid() && ledger.db == db
      modifies db
      ensures Refines(db, r, Machine.Ended(old(db.State()), Machine.PayFromWallet(old(db.State()), ship, payer, amount), commits))
    {
      if ship == "" || payer == "" || amount <= 0 {
        return Err(InvalidAmount);
      }
      var tx := db.Begin();
      r := PayInTx(ship, payer, amount);
      r := db.End(tx, r, commits);
    }
  
    /** Two journals, one after the other, and then the row. */
    method FundInTx(ship: string, order: string) returns (r: Result<EscrowRow>)
      requires db.Valid() && ledger.db == db && ship != "" && order != ""
      modifies db
      ensures RefinesInTx(db, r, Machine.FundEscrow(old(db.State()), ship, order))
    {
      if ship !in db.escrows {
        return Err(EscrowNotFound);
      }
      var escrow := db.escrows[ship];
      if !escrow.status.CanFund() {
        return Err(InvalidTransition);
      }
      ghost var p := PspLeg(ship, order, escrow.payer, escrow.amount);
      ghost var q := EscrowLeg(ship, order, escrow.payer, escrow.amount);
      assert [p, q][1..] == [q];
      var refused := ledger.PostJournal(PspToWallet, PspWalletRef(ship, order),
                                        [Line(PspClearing, escrow.amount, 0), Line(Wallet(escrow.payer), 0, escrow.amount)]);
      if refused.Some? {
        return Err(refused.value);
      }
      PostAllOne(db.State().log, q);
      refused := ledger.PostJournal(WalletToEscrow, WalletEscrowRef(ship, order),
                                    [Line(Wallet(escrow.payer), escrow.amount, 0), Line(Escrow(ship), 0, escrow.amount)]);
      if refused.Some? {
        return Err(refused.value);
      }
      escrow := escrow.(status := Funded, paymentOrderId := order, source := FromPsp);
      db.escrows := db.escrows[ship := escrow];
      return Ok(escrow);
    }

    /** Joins the caller's transaction when there is one, and then leaves the rollback to it. */
    method FundEscrow(ship: string, order: string, inTx: bool, commits: bool) returns (r: Result<EscrowRow>)
      requires db.Valid() && ledger.db == db
      modifies db
      ensures inTx ==> RefinesInTx(db, r, Machine.FundEscrow(old(db.State()), ship, order))
      ensures !inTx ==> Refines(db, r, Machine.Ended(old(db.State()), Machine.FundEscrow(old(db.State()), ship, order), commits))
    {
      if ship == "" || order == "" {
        return Err(InvalidAmount);
      }
      if inTx {
        r := FundInTx(ship, order);
        return;
      }
      var tx := db.Begin();
      r := FundInTx(ship, order);
      r := db.End(tx, r, commits);
    }

    // ---- release and refunds -------------------------------------------------------------------

    method ReleaseInTx(ship: string, feeProduct: int64) returns (r: Result<EscrowRow>)
      requires db.Valid() && ledger.db == db && ship != ""
      modifies db
      ensures RefinesInTx(db, r, Machine.ReleaseEscrow(old(db.State()), ship, feeProduct))
    {
      if ship !in db.escrows {
        return Err(EscrowNotFound);
      }
      var escrow := db.escrows[ship];
      if !escrow.status.CanRelease() {
        return Err(InvalidTransition);
      }
      var balance :- ledger.AccountBalance(Escrow(ship));
      if balance <= 0 {
        return Err(NoEscrowBalance);
      }
      var fee := CalcPlatformFee(balance, feeProduct);
      var carrierAmount := Sub(balance, fee);
      var refused := ledger.PostJournal(EscrowRelease, ReleaseRef(ship),
                                        [Line(Escrow(ship), balance, 0), Line(FeeRevenue, 0, fee),
                                         Line(Wallet(escrow.carrier), 0, carrierAmount)]);
      if refused.Some? {
        return Err(refused.value);
      }
      escrow := escrow.(status := Released);
      db.escrows := db.escrows[ship := escrow];
      return Ok(escrow);
    }

    method ReleaseEscrow(ship: string, feeProduct: int64, commits: bool) returns (r: Result<EscrowRow>)
      requires db.Valid() && ledger.db == db
      modifies db
      ensures Refines(db, r, Machine.Ended(old(db.State()), Machine.ReleaseEscrow(old(db.State()), ship, feeProduct), commits))
    {
      if ship == "" {
        return Err(InvalidAmount);
      }
      var tx := db.Begin();
      r := ReleaseInTx(ship, feeProduct);
      r := db.End(tx, r, commits);
    }

    method BuildEscrowRefundJournals(payer: string, ship: string, promoRefund: int, walletRefund: int) returns (js: seq<Journal>)
      ensures js == RefundJournals(payer, ship, promoRefund, walletRefund)
    {
      js := [];
      if promoRefund > 0 {
        js := js + [Journal(EscrowRefundPromoCredit, RefundPromoRef(ship, promoRefund),
                            [Line(Escrow(ship), promoRefund, 0), Line(Promo(payer), 0, promoRefund)])];
      }
      if walletRefund > 0 {
        js := js + [Journal(EscrowRefundWallet, RefundWalletRef(ship, walletRefund),
                            [Line(Escrow(ship), walletRefund, 0), Line(Wallet(payer), 0, walletRefund)])];
      }
    }

    /** Posts the refund journals one by one and stops at the first that is refused. */
    method PostRefundJournals(payer: string, ship: string, promoRefund: int, walletRefund: int) returns (err: Option<Error>)
      requires db.Valid() && ledger.db == db
      modifies db
      ensures db.Valid() && old(db.wallets) <= db.wallets
      ensures db.State() == old(db.State()).(log := db.State().log)
      ensures match PostAll(old(db.State()).log, RefundJournals(payer, ship, promoRefund, walletRefund))
              case Ok(log) => err == None && db.State().log == log
              case Err(e) => err == Some(e)
    {
      var js := BuildEscrowRefundJournals(payer, ship, promoRefund, walletRefund);
      assert js[0..] == js;
      for i := 0 to |js|
        invariant db.Valid() && old(db.wallets) <= db.wallets
        invariant db.State() == old(db.State()).(log := db.State().log)
        invariant PostAll(old(db.State()).log, js) == PostAll(db.State().log, js[i..])
      {
        assert js[i..][0] == js[i] && js[i..][1..] == js[i + 1..];
        err := ledger.PostJournal(js[i].refType, js[i].refId, js[i].lines);
        if err.Some? {
          return;
        }
      }
      return None;
    }

    /** The part the two refunds share, on an escrow that holds balance. */
    method GiveBack(ship: string, refund: int, balance: int) returns (r: Result<EscrowRow>)
      requires db.Valid() && ledger.db == db && ship in db.escrows
      modifies db
      ensures RefinesInTx(db, r, Machine.PayRefund(old(db.State()), ship, old(db.escrows)[ship], balance, refund))
    {
      var escrow := db.escrows[ship];
      var (promoRefund, walletRefund) := RefundAllocation(refund, escrow.promoCreditFunded);
      var refused := PostRefundJournals(escrow.payer, ship, promoRefund, walletRefund);
      if refused.Some? {
        return Err(refused.value);
      }
      escrow := escrow.(promoCreditFunded := Sub(escrow.promoCreditFunded, promoRefund));
      if escrow.promoCreditFunded < 0 {
        escrow := escrow.(promoCreditFunded := 0);
      }
      escrow := escrow.(status := if refund == balance then Refunded else PartiallyRefunded);
      db.escrows := db.escrows[ship := escrow];
      return Ok(escrow);
    }

    method RefundInTx(ship: string) returns (r: Result<EscrowRow>)
      requires db.Valid() && ledger.db == db && ship != ""
      modifies db
      ensures RefinesInTx(db, r, Machine.RefundEscrow(old(db.State()), ship))
    {
      if ship !in db.escrows {
        return Err(EscrowNotFound);
      }
      if !db.escrows[ship].status.CanRefund() {
        return Err(InvalidTransition);
      }
      var balance :- ledger.AccountBalance(Escrow(ship));
      if balance <= 0 {
        return Err(NoEscrowBalance);
      }
      r := GiveBack(ship, balance, balance);
    }

    method RefundEscrow(ship: string, commits: bool) returns (r: Result<EscrowRow>)
      requires db.Valid() && ledger.db == db
      modifies db
      ensures Refines(db, r, Machine.Ended(old(db.State()), Machine.RefundEscrow(old(db.State()), ship), commits))
    {
      if ship == "" {
        return Err(InvalidAmount);
      }
      var tx := db.Begin();
      r := RefundInTx(ship);
      r := db.End(tx, r, commits);
    }

    method PartialRefundInTx(ship: string, refund: int64) returns (r: Result<EscrowRow>)
      requires db.Valid() && ledger.db == db && ship != "" && refund > 0
      modifies db
      ensures RefinesInTx(db, r, Machine.PartialRefundEscrow(old(db.State()), ship, refund))
    {
      if ship !in db.escrows {
        return Err(EscrowNotFound);
      }
      if !db.escrows[ship].status.CanPartialRefund() {
        return Err(InvalidTransition);
      }
      var balance :- ledger.AccountBalance(Escrow(ship));
      if balance <= 0 {
        return Err(NoEscrowBalance);
      }
      if refund > balance {
        return Err(RefundExceedsBalance);
      }
      r := GiveBack(ship, refund, balance);
    }

    method PartialRefundEscrow(ship: string, refund: int64, commits: bool) returns (r: Result<EscrowRow>)
      requires db.Valid() && ledger.db == db
      modifies db
      ensures Refines(db, r, Machine.Ended(old(db.State()), Machine.PartialRefundEscrow(old(db.State()), ship, refund), commits))
    {
      if ship == "" || refund <= 0 {
        return Err(InvalidAmount);
      }
      var tx := db.Begin();
      r := PartialRefundInTx(ship, refund);
      r := db.End(tx, r, commits);
    }
  }
}
