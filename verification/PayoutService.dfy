/** The withdrawal use cases as they run. */
module PayoutService {
  import opened Results
  import opened Int64
  import opened Accounts
  import opened Refs
  import opened Ledger
  import opened Postings
  import opened Domain
  import opened Databases
  import opened LedgerService
  import Machine

  class WithdrawalUseCases {
    const db: Database
    const ledger: LedgerUseCases

    constructor (db: Database)
      ensures this.db == db && ledger.db == db
    {
      this.db := db;
      ledger := new LedgerUseCases(db);
    }

    method ReserveInTx(id: Uuid, user: string, amount: int64) returns (r: Result<WithdrawalRow>)
      requires db.Valid() && ledger.db == db
      modifies db
      ensures db.Valid() && old(db.wallets) <= db.wallets && db.State().grants == old(db.State()).grants
      ensures var s := old(db.State());
              var posted := Post(s.log, ReserveJournal(id, user, amount));
              if id in s.withdrawals then r == Err(DuplicateId)
              else if posted.Err? then r == Err(posted.error)
              else Machine.Done(db.State(), r) == Machine.PutWithdrawal(s, posted.value, id, WithdrawalRow(user, amount, WPending))
    {
      if id in db.withdrawals {
        return Err(DuplicateId);
      }
      var withdrawal := WithdrawalRow(user, amount, WPending);
      db.withdrawals := db.withdrawals[id := withdrawal];
      var refused := ledger.PostJournal(WithdrawalReserve, ReserveRef(id),
                                        [Line(Wallet(user), amount, 0), Line(PayoutClearing, 0, amount)]);
      if refused.Some? {
        return Err(refused.value);
      }
      return Ok(withdrawal);
    }

    /** The wallet balance is read before the transaction begins. */
    method CreateWithdrawal(id: Uuid, user: string, amount: int64, iban: string, userActive: bool, kycApproved: bool,
                            commits: bool)
      returns (r: Result<WithdrawalRow>)
      requires db.Valid() && ledger.db == db
      modifies db
      ensures Refines(db, r, Machine.Ended(old(db.State()),
                                            Machine.CreateWithdrawal(old(db.State()), id, user, amount, iban, userActive, kycApproved), commits))
    {
      if user == "" || amount <= 0 || iban == "" {
        return Err(WithdrawalInvalidInput);
      }
      if !userActive {
        return Err(UserInactive);
      }
      if !kycApproved {
        return Err(KycNotApproved);
      }
      var balance :- ledger.AccountBalance(Wallet(user));
      if balance < amount {
        return Err(InsufficientWallet);
      }
      var tx := db.Begin();
      r := ReserveInTx(id, user, amount);
      r := db.End(tx, r, commits);
    }

    /** The four transitions that move no money. */
    method MoveStatus(id: string, from: WithdrawalStatus, to: WithdrawalStatus) returns (r: Result<WithdrawalRow>)
      requires db.Valid()
      modifies db
      ensures Refines(db, r, Machine.MoveWithdrawal(old(db.State()), id, from, to))
    {
      if id !in db.withdrawals {
        return Err(WithdrawalNotFound);
      }
      var withdrawal := db.withdrawals[id];
      if withdrawal.status != from {
        return Err(InvalidTransition);
      }
      withdrawal := withdrawal.(status := to);
      db.withdrawals := db.withdrawals[id := withdrawal];
      return Ok(withdrawal);
    }

    method Approve(id: string) returns (r: Result<WithdrawalRow>)
      requires db.Valid()
      modifies db
      ensures Refines(db, r, Machine.ApproveWithdrawal(old(db.State()), id))
    {
      if id == "" {
        return Err(WithdrawalInvalidInput);
      }
      r := MoveStatus(id, WPending, Approved);
    }

    method MarkSent(id: string, providerRef: string, channel: string, receipt: string) returns (r: Result<WithdrawalRow>)
      requires db.Valid()
      modifies db
      ensures Refines(db, r, Machine.MarkWithdrawalSent(old(db.State()), id, providerRef, channel, receipt))
    {
      if id == "" || providerRef == "" || channel == "" || receipt == "" {
        return Err(WithdrawalInvalidInput);
      }
      r := MoveStatus(id, Approved, SentToBank);
    }

    method Settle(id: string) returns (r: Result<WithdrawalRow>)
      requires db.Valid()
      modifies db
      ensures Refines(db, r, Machine.SettleWithdrawal(old(db.State()), id))
    {
      if id == "" {
        return Err(WithdrawalInvalidInput);
      }
      r := MoveStatus(id, SentToBank, Settled);
    }

    method Process(id: string, providerRef: string, channel: string, receipt: string) returns (r: Result<WithdrawalRow>)
      requires db.Valid()
      modifies db
      ensures Refines(db, r, Machine.ProcessWithdrawal(old(db.State()), id, providerRef, channel, receipt))
    {
      if id == "" || providerRef == "" || channel == "" || receipt == "" {
        return Err(WithdrawalInvalidInput);
      }
      r := MoveStatus(id, WPending, Completed);
    }

    /** Posts the reversal and then moves the status; the caller has checked the status. */
    method ReturnInTx(id: string, ref: string, to: WithdrawalStatus) returns (r: Result<WithdrawalRow>)
      requires db.Valid() && ledger.db == db && id in db.withdrawals
      modifies db
      ensures var w := old(db.withdrawals)[id];
              RefinesInTx(db, r, Machine.ReturnReserve(old(db.State()), id, w,
                                   Transfer(WithdrawalRejectReversal, ref, PayoutClearing, Wallet(w.user), w.amount), to))
    {
      var withdrawal := db.withdrawals[id];
      var refused := ledger.PostJournal(WithdrawalRejectReversal, ref,
                                        [Line(PayoutClearing, withdrawal.amount, 0), Line(Wallet(withdrawal.user), 0, withdrawal.amount)]);
      if refused.Some? {
        return Err(refused.value);
      }
      withdrawal := withdrawal.(status := to);
      db.withdrawals := db.withdrawals[id := withdrawal];
      return Ok(withdrawal);
    }

    method Fail(id: string, reason: string, commits: bool) returns (r: Result<WithdrawalRow>)
      requires db.Valid() && ledger.db == db
      modifies db
      ensures Refines(db, r, Machine.Ended(old(db.State()),
                                            Machine.FailWithdrawal(old(db.State()), id, reason), commits))
    {
      if id == "" || reason == "" {
        return Err(WithdrawalInvalidInput);
      }
      if id !in db.withdrawals {
        return Err(WithdrawalNotFound);
      }
      var status := db.withdrawals[id].status;
      if status != Approved && status != SentToBank {
        return Err(InvalidTransition);
      }
      var tx := db.Begin();
      r := ReturnInTx(id, FailRef(id), WFailed);
      r := db.End(tx, r, commits);
    }

    method Reject(id: string, commits: bool) returns (r: Result<WithdrawalRow>)
      requires db.Valid() && ledger.db == db
      modifies db
      ensures Refines(db, r, Machine.Ended(old(db.State()),
                                            Machine.RejectWithdrawal(old(db.State()), id), commits))
    {
      if id == "" {
        return Err(WithdrawalInvalidInput);
      }
      if id !in db.withdrawals {
        return Err(WithdrawalNotFound);
      }
      if db.withdrawals[id].status != WPending {
        return Err(InvalidTransition);
      }
      var tx := db.Begin();
      r := ReturnInTx(id, RejectRef(id), Rejected);
      r := db.End(tx, r, commits);
    }
  }
}
