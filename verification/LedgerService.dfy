/** Posting journals and reading balances through the database. */
module LedgerService {
  import opened Results
  import opened Accounts
  import opened Refs
  import opened Ledger
  import opened Machine
  import opened Databases

  /** Nothing but the ledger and the wallet registry has changed, and the registry has only grown. */
  twostate predicate OnlyLedger(db: Database)
    reads db
  {
    && db.State() == old(db.State()).(log := db.State().log)
    && old(db.wallets) <= db.wallets
  }

  /** The state and answer are those of the specification. */
  twostate predicate Refines<T>(db: Database, new r: Result<T>, spec: Done<T>)
    reads db
  {
    && db.Valid()
    && old(db.wallets) <= db.wallets
    && Done(db.State(), r) == spec
  }

  /** Inside a transaction only the answer is fixed when it is an error: the rollback is still to come. */
  twostate predicate RefinesInTx<T>(db: Database, new r: Result<T>, spec: Done<T>)
    reads db
  {
    && db.Valid()
    && old(db.wallets) <= db.wallets
    && r == spec.result
    && db.State().grants == old(db.State()).grants
    && (r.Ok? ==> db.State() == spec.state)
  }

  class LedgerUseCases {
    const db: Database

    constructor (db: Database)
      ensures this.db == db
    {
      this.db := db;
    }

    /** Builds a journal out of validated lines. */
    method NewJournal(rt: RefType, ref: string, lines: seq<Line>) returns (r: Result<Journal>)
      ensures r == if ref == "" then Err(InvalidEntry)
                   else if Verdict(lines).Some? then Err(Verdict(lines).value)
                   else Ok(Journal(rt, ref, lines))
    {
      if ref == "" {
        return Err(InvalidEntry);
      }
      var err := ValidateLines(lines);
      if err.Some? {
        return Err(err.value);
      }
      var entries := new Line[|lines|](i requires 0 <= i < |lines| => Line(lines[i].account, 0, 0));
      for i := 0 to |lines|
        invariant entries[..i] == lines[..i]
      {
        entries[i] := lines[i];
      }
      assert entries[..] == lines;
      return Ok(Journal(rt, ref, entries[..]));
    }

    /** Validates, registers the wallets the lines touch, and inserts; what it refuses leaves the ledger alone. */
    method PostJournal(rt: RefType, ref: string, lines: seq<Line>) returns (err: Option<Error>)
      requires db.Valid()
      modifies db
      ensures db.Valid() && OnlyLedger(db)
      ensures match Post(old(db.State()).log, Journal(rt, ref, lines))
              case Ok(log) => err == None && db.State().log == log
              case Err(e) => err == Some(e) && db.State().log == old(db.State()).log
    {
      var journal := NewJournal(rt, ref, lines);
      if journal.Err? {
        return Some(journal.error);
      }
      db.EnsureForLines(lines);
      forall i | 0 <= i < |lines| && lines[i].account.Wallet? && lines[i].account.user != ""
        ensures lines[i].account.user in db.wallets
      {
        WalletUsersAll(lines, i);
      }
      err := db.CreateJournal(journal.value);
    }

    /** Balance of one account, by its account code. */
    method AccountBalance(a: Account) returns (r: Result<int>)
      requires db.Valid()
      ensures r == Balance(db.State().log, Of(a))
    {
      SumByCodeIsSumByAccount(db.State().log, a);
      r := db.SumBalance(ByCode(Code(a)));
    }
  }
}
