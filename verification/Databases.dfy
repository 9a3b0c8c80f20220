/** The finance database: its tables as mutable fields, transactions, and the repository operations on it. */
module Databases {
  import opened Results
  import opened Int64
  import opened Accounts
  import opened Ledger
  import opened Domain
  import opened Machine
  import opened Tables

  /** What a transaction gives back when it is rolled back. Credit grants and the wallet registry are written through the
      pool, not through the transaction, and are no part of it. */
  datatype Savepoint = Savepoint(
    headers: seq<Header>,
    entries: seq<Entry>,
    escrows: map<string, EscrowRow>,
    orders: map<string, OrderRow>,
    withdrawals: map<string, WithdrawalRow>,
    verifyEvents: set<string>)

  /** The users whose wallet accounts the lines touch, as far as their codes can be parsed. */
  function WalletUsers(lines: seq<Line>): set<string> {
    if lines == [] then {}
    else
      var user := ParseUserIDFromWalletAccount(Code(lines[|lines| - 1].account));
      WalletUsers(lines[..|lines| - 1]) + if user.Some? then {user.value} else {}
  }

  /** Every wallet with a posted line is registered. */
  ghost predicate Registered(entries: seq<Entry>, wallets: set<string>) {
    forall i :: 0 <= i < |entries| && entries[i].line.account.Wallet? && entries[i].line.account.user != "" ==>
      entries[i].line.account.user in wallets
  }

  function EntriesOf(journal: nat, lines: seq<Line>): seq<Entry> {
    seq(|lines|, i requires 0 <= i < |lines| => Entry(journal, lines[i]))
  }

  lemma {:induction false} WalletUsersAll(lines: seq<Line>, i: nat)
    requires i < |lines| && lines[i].account.Wallet? && lines[i].account.user != ""
    ensures lines[i].account.user in WalletUsers(lines)
  {
    if i == |lines| - 1 {
      ParseWalletRoundTrip(lines[i].account);
    } else {
      WalletUsersAll(lines[..|lines| - 1], i);
    }
  }

  class Database {
    var headers: seq<Header>
    var entries: seq<Entry>
    var escrows: map<string, EscrowRow>
    var orders: map<string, OrderRow>
    var withdrawals: map<string, WithdrawalRow>
    var verifyEvents: set<string>
    var grants: map<string, GrantRow>
    var wallets: set<string>

    ghost predicate Valid()
      reads this
    {
      Owned(headers, entries) && Registered(entries, wallets)
    }

    ghost function State(): State
      reads this
    {
      Machine.State(LogOf(headers, entries), escrows, orders, withdrawals, grants, verifyEvents)
    }

    constructor ()
      ensures Valid() && State() == EMPTY
    {
      headers, entries := [], [];
      escrows, orders, withdrawals, grants := map[], map[], map[], map[];
      verifyEvents, wallets := {}, {};
    }

    // ---- transactions --------------------------------------------------------------------------

    function Begin(): Savepoint
      reads this
    {
      Savepoint(headers, entries, escrows, orders, withdrawals, verifyEvents)
    }

    /** Undoes everything since the savepoint except what was written through the pool. */
    method Rollback(tx: Savepoint)
      requires Owned(tx.headers, tx.entries) && Registered(tx.entries, wallets)
      modifies this
      ensures Valid() && Begin() == tx
      ensures grants == old(grants) && wallets == old(wallets)
    {
      headers, entries := tx.headers, tx.entries;
      escrows, orders, withdrawals, verifyEvents := tx.escrows, tx.orders, tx.withdrawals, tx.verifyEvents;
    }

    /** The end of a transaction: an error rolls it back, and so does a commit that fails. */
    method End<T>(tx: Savepoint, r: Result<T>, commits: bool) returns (end: Result<T>)
      requires Owned(tx.headers, tx.entries) && Registered(tx.entries, wallets) && Valid()
      modifies this
      ensures Valid() && grants == old(grants) && wallets == old(wallets)
      ensures r.Ok? && commits ==> end == r && Begin() == old(Begin())
      ensures !(r.Ok? && commits) ==> end == (if r.Ok? then Err(CommitFailed) else r) && Begin() == tx
    {
      if r.Ok? && commits {
        return r;
      }
      Rollback(tx);
      return if r.Ok? then Err(CommitFailed) else r;
    }

    // ---- the ledger ----------------------------------------------------------------------------

    /** The repository's sums over the flat entry table, read into an int64 each. */
    method SumBalance(sel: Selector) returns (r: Result<int>)
      requires Valid()
      ensures r == Balance(State().log, sel)
    {
      FlatSums(headers, entries, sel);
      var debit, credit := SumDebit(entries, sel), SumCredit(entries, sel);
      if !(0 <= debit <= MAX && 0 <= credit <= MAX) {
        return Err(SumOverflow);
      }
      return Ok(credit - debit);
    }

    /** Inserts the header under its unique key, then one entry row per line; the CHECK constraints are met by every
        validated line. */
    method CreateJournal(j: Journal) returns (err: Option<Error>)
      requires Owned(headers, entries)
      requires forall i :: 0 <= i < |j.lines| ==> OneSided(j.lines[i])
      modifies this`headers, this`entries
      ensures Owned(headers, entries)
      ensures (j.refType, j.refId) in Keys(old(State()).log) ==> err == Some(DuplicateJournal) && State() == old(State())
      ensures (j.refType, j.refId) !in Keys(old(State()).log) ==>
                err == None && State() == old(State()).(log := old(State()).log + [j])
      ensures entries == old(entries) + if err == None then EntriesOf(|old(headers)|, j.lines) else []
    {
      var header := Header(j.refType, j.refId);
      HeaderKeys(headers, entries, j.refType, j.refId);
      if header in headers {
        return Some(DuplicateJournal);
      }
      var id := |headers|;
      ghost var log := State().log;
      HeaderAppends(headers, entries, header);
      headers := headers + [header];
      assert j.lines[..0] == [];
      for i := 0 to |j.lines|
        invariant id < |headers| && headers == old(headers) + [header]
        invariant Owned(headers, entries)
        invariant entries == old(entries) + EntriesOf(id, j.lines[..i])
        invariant LogOf(headers, entries) == log + [j.(lines := j.lines[..i])]
      {
        EntryAppends(headers, entries, Entry(id, j.lines[i]));
        assert j.lines[..i + 1] == j.lines[..i] + [j.lines[i]];
        entries := entries + [Entry(id, j.lines[i])];
      }
      assert j.lines[..|j.lines|] == j.lines;
      return None;
    }

    // ---- wallet registry -----------------------------------------------------------------------

    /** Registers a wallet if it is missing. */
    method EnsureAccount(user: string)
      modifies this`wallets
      ensures wallets == old(wallets) + {user}
    {
      wallets := wallets + {user};
    }

    /** Registers the wallet of every line, each user once. */
    method EnsureForLines(lines: seq<Line>)
      modifies this`wallets
      ensures wallets == old(wallets) + WalletUsers(lines)
    {
      var seen: set<string> := {};
      for i := 0 to |lines|
        invariant seen == WalletUsers(lines[..i])
        invariant wallets == old(wallets) + seen
      {
        assert lines[..i + 1][..i] == lines[..i];
        var user := ParseUserIDFromWalletAccount(Code(lines[i].account));
        if user.None? {
          continue;
        }
        if user.value in seen {
          continue;
        }
        seen := seen + {user.value};
        EnsureAccount(user.value);
      }
      assert lines[..|lines|] == lines;
    }

    // ---- credit grants, written through the pool -------------------------------------------------

    /** Inserts a grant unless its id or its idempotency key is taken. */
    method CreateGrant(id: string, g: GrantRow) returns (err: Option<Error>)
      requires Valid()
      modifies this`grants
      ensures Valid()
      ensures Machine.GrantTaken(old(State()), id, g.idempotencyKey) ==> err == Some(DuplicateGrant) && grants == old(grants)
      ensures !Machine.GrantTaken(old(State()), id, g.idempotencyKey) ==> err == None && grants == old(grants)[id := g]
    {
      if id in grants || exists k :: k in grants && grants[k].idempotencyKey == g.idempotencyKey {
        return Some(DuplicateGrant);
      }
      grants := grants[id := g];
      return None;
    }

    /** The conditional update to REVERSED, with the answer read back when it touches no row. */
    method MarkReversed(id: string) returns (err: Option<Error>)
      requires Valid()
      modifies this`grants
      ensures Valid()
      ensures if id !in old(grants) then err == Some(GrantNotFound) && grants == old(grants)
              else if old(grants)[id].status == Reversed then err == Some(AlreadyReversed) && grants == old(grants)
              else err == None && grants == old(grants)[id := old(grants)[id].(status := Reversed)]
    {
      if id in grants && grants[id].status == Active {
        grants := grants[id := grants[id].(status := Reversed)];
        return None;
      }
      if id !in grants {
        return Some(GrantNotFound);
      }
      return Some(AlreadyReversed);
    }
  }
}
