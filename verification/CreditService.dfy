/** The promo credit use cases as they run; grant rows are written outside the transaction. */
module CreditService {
  import opened Results
  import opened Int64
  import opened Accounts
  import opened Refs
  import opened Ledger
  import opened Postings
  import opened Domain
  import opened Databases
  import opened LedgerService
  import Machine

  class CreditUseCases {
    const db: Database
    const ledger: LedgerUseCases

    constructor (db: Database)
      ensures this.db == db && ledger.db == db
    {
      this.db := db;
      ledger := new LedgerUseCases(db);
    }

    /** The journal is rolled back when it is refused or its commit fails; the grant row is not. */
    method GrantCredit(id: Uuid, user: string, amount: int64, reason: string, grantedBy: string, key: string, commits: bool)
      returns (r: Result<GrantRow>)
      requires db.Valid() && ledger.db == db
      modifies db
      ensures Refines(db, r, Machine.Ended(old(db.State()),
                                            Machine.GrantCredit(old(db.State()), id, user, amount, reason, grantedBy, key), commits))
    {
      if user == "" || amount <= 0 || reason == "" || grantedBy == "" || key == "" {
        return Err(CreditInvalidInput);
      }
      var tx := db.Begin();
      r := GrantInTx(id, user, amount, key);
      r := db.End(tx, r, commits);
    }

    /** The row and then the journal; on an error the ledger is still to be rolled back. */
    method GrantInTx(id: Uuid, user: string, amount: int64, key: string) returns (r: Result<GrantRow>)
      requires db.Valid() && ledger.db == db
      modifies db
      ensures db.Valid() && old(db.wallets) <= db.wallets
      ensures var s, g := old(db.State()), GrantRow(user, amount, Active, key);
              var posted := Post(s.log, GrantJournal(id, user, amount));
              if Machine.GrantTaken(s, id, key) then r == Err(DuplicateGrant) && db.State() == s
              else db.State() == s.(grants := s.grants[id := g], log := db.State().log)
                   && (if posted.Err? then r == Err(posted.error) else r == Ok(g) && db.State().log == posted.value)
    {
      var grant := GrantRow(user, amount, Active, key);
      var taken := db.CreateGrant(id, grant);
      if taken.Some? {
        return Err(taken.value);
      }
      var refused := ledger.PostJournal(PromoCreditGrant, id, [Line(PromoExpense, amount, 0), Line(Promo(user), 0, amount)]);
      if refused.Some? {
        return Err(refused.value);
      }
      return Ok(grant);
    }

    /** The transaction of a reversal. The row was read before it began and another call may have reversed it since. */
    method ReverseLoaded(id: string, grant: GrantRow, commits: bool) returns (r: Result<GrantRow>)
      requires db.Valid() && ledger.db == db
      modifies db
      ensures Refines(db, r, Machine.Ended(old(db.State()), Machine.ReverseLoaded(old(db.State()), id, grant), commits))
    {
      var tx := db.Begin();
      r := ReverseInTx(id, grant);
      r := db.End(tx, r, commits);
    }

    method ReverseInTx(id: string, grant: GrantRow) returns (r: Result<GrantRow>)
      requires db.Valid() && ledger.db == db
      modifies db
      ensures db.Valid() && old(db.wallets) <= db.wallets
      ensures var s, spec := old(db.State()), Machine.ReverseLoaded(old(db.State()), id, grant);
              r == spec.result && db.State() == spec.state.(log := db.State().log) && (r.Ok? ==> db.State() == spec.state)
    {
      var failed := db.MarkReversed(id);
      if failed.Some? {
        return Err(failed.value);
      }
      var refused := ledger.PostJournal(PromoCreditReverse, ReverseRef(id),
                                        [Line(Promo(grant.user), grant.amount, 0), Line(PromoExpense, 0, grant.amount)]);
      if refused.Some? {
        return Err(refused.value);
      }
      return Ok(grant.(status := Reversed));
    }

    method ReverseCreditGrant(id: string, reason: string, reversedBy: string, commits: bool) returns (r: Result<GrantRow>)
      requires db.Valid() && ledger.db == db
      modifies db
      ensures Refines(db, r, Machine.Ended(old(db.State()),
                                            Machine.ReverseCreditGrant(old(db.State()), id, reason, reversedBy), commits))
    {
      if id == "" || reason == "" || reversedBy == "" {
        return Err(CreditInvalidInput);
      }
      if id !in db.grants {
        return Err(GrantNotFound);
      }
      var grant := db.grants[id];
      if grant.status == Reversed {
        return Err(AlreadyReversed);
      }
      r := ReverseLoaded(id, grant, commits);
    }
  }
}
