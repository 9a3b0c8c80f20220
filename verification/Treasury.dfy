/** The treasury summary, and the accounting equation it satisfies in every reachable state. */
module Treasury {
  import opened Results
  import opened Accounts
  import opened Ledger
  import opened Totals
  import opened Machine
  import opened Steps
  import opened Balances
  import Like

  const DEFAULT_CURRENCY := "IRT"
  const WALLETS_LINE := "AGGREGATE_WALLET_LIABILITY"
  const ESCROWS_LINE := "AGGREGATE_ESCROW_LIABILITY"
  const PROMOS_LINE := "AGGREGATE_PROMO_CREDIT_LIABILITY"

  /** The line of the summary that reports a family of accounts. */
  function LineOf(k: Kind): string {
    match k
    case Psp => Code(PspClearing)
    case Bank => Code(BankMain)
    case Payout => Code(PayoutClearing)
    case Fee => Code(FeeRevenue)
    case Expense => Code(PromoExpense)
    case Wallets => WALLETS_LINE
    case Promos => PROMOS_LINE
    case Escrows => ESCROWS_LINE
  }

  /** Assets and expenses are reported debit minus credit, revenue and liabilities credit minus debit. */
  predicate DebitSide(k: Kind) {
    k in {Psp, Bank, Payout, Expense}
  }

  function Reported(log: Log, k: Kind): int {
    if DebitSide(k) then -Net(log, OfKind(k)) else Net(log, OfKind(k))
  }

  /** Both sums of a family can be read into an int64. */
  predicate Readable(log: Log, k: Kind) {
    Balance(log, OfKind(k)).Ok?
  }

  // ---- what the queries select -----------------------------------------------------------------

  /** The condition of the query behind a line: an exact account code, or one of the three LIKE patterns. */
  function QueryOf(k: Kind): Selector {
    match k
    case Psp => ByCode(Code(PspClearing))
    case Bank => ByCode(Code(BankMain))
    case Payout => ByCode(Code(PayoutClearing))
    case Fee => ByCode(Code(FeeRevenue))
    case Expense => ByCode(Code(PromoExpense))
    case Wallets => ByLike(Like.WalletPattern())
    case Promos => ByLike(Like.PromoPattern())
    case Escrows => ByLike(Like.EscrowPattern())
  }

  lemma CodeSelects(system: Account, a: Account)
    ensures Selects(ByCode(Code(system)), a) <==> a == system
  {
    if Code(a) == Code(system) {
      CodeInjective(a, system);
    }
  }

  /** The eight queries partition every account, whatever the user and shipment ids contain. */
  lemma QueriesPartition(k: Kind, a: Account)
    ensures Selects(QueryOf(k), a) <==> KindOf(a) == k
  {
    match k
    case Psp => CodeSelects(PspClearing, a);
    case Bank => CodeSelects(BankMain, a);
    case Payout => CodeSelects(PayoutClearing, a);
    case Fee => CodeSelects(FeeRevenue, a);
    case Expense => CodeSelects(PromoExpense, a);
    case Wallets => Like.WalletPatternExact(a);
    case Promos => Like.PromoPatternExact(a);
    case Escrows => Like.EscrowPatternExact(a);
  }

  lemma QuerySums(log: Log, k: Kind)
    ensures Balance(log, QueryOf(k)) == Balance(log, OfKind(k))
  {
    forall a ensures Selects(QueryOf(k), a) == Selects(OfKind(k), a) {
      QueriesPartition(k, a);
    }
    SameSums(log, QueryOf(k), OfKind(k));
  }

  // ---- the use case ----------------------------------------------------------------------------

  function WithLine(accounts: map<string, int>, log: Log, k: Kind): map<string, int> {
    accounts[LineOf(k) := Reported(log, k)]
  }

  function SystemAccounts(log: Log): map<string, int> {
    WithLine(WithLine(WithLine(WithLine(WithLine(map[], log, Psp), log, Bank), log, Payout), log, Fee), log, Expense)
  }

  function Summary(log: Log): map<string, int> {
    WithLine(WithLine(WithLine(SystemAccounts(log), log, Wallets), log, Escrows), log, Promos)
  }

  predicate SystemReadable(log: Log) {
    Readable(log, Psp) && Readable(log, Bank) && Readable(log, Payout) && Readable(log, Fee) && Readable(log, Expense)
  }

  /** Queries one family and writes its line. */
  method WriteLine(accounts: map<string, int>, log: Log, k: Kind) returns (r: Result<map<string, int>>)
    ensures r == if Readable(log, k) then Ok(WithLine(accounts, log, k)) else Err(SumOverflow)
  {
    QuerySums(log, k);
    var balance := Balance(log, QueryOf(k));
    if balance.Err? {
      return Err(balance.error);
    }
    return Ok(accounts[LineOf(k) := if DebitSide(k) then -balance.value else balance.value]);
  }

  method SystemLines(log: Log) returns (r: Result<map<string, int>>)
    ensures r == if SystemReadable(log) then Ok(SystemAccounts(log)) else Err(SumOverflow)
  {
    var accounts: map<string, int> := map[];
    accounts :- WriteLine(accounts, log, Psp);
    accounts :- WriteLine(accounts, log, Bank);
    accounts :- WriteLine(accounts, log, Payout);
    accounts :- WriteLine(accounts, log, Fee);
    accounts :- WriteLine(accounts, log, Expense);
    return Ok(accounts);
  }

  /** The summary is filled line by line; it fails as a whole when any sum is too large to read. */
  method GetTreasurySummary(log: Log, currency: string) returns (r: Result<map<string, int>>)
    ensures r == if currency != "" && currency != DEFAULT_CURRENCY then Err(UnsupportedCurrency)
                 else if SystemReadable(log) && Readable(log, Wallets) && Readable(log, Escrows) && Readable(log, Promos)
                 then Ok(Summary(log))
                 else Err(SumOverflow)
  {
    if currency != "" && currency != DEFAULT_CURRENCY {
      return Err(UnsupportedCurrency);
    }
    var accounts :- SystemLines(log);
    accounts :- WriteLine(accounts, log, Wallets);
    accounts :- WriteLine(accounts, log, Escrows);
    accounts :- WriteLine(accounts, log, Promos);
    return Ok(accounts);
  }

  // ---- what the summary says -------------------------------------------------------------------

  predicate Has(accounts: map<string, int>, log: Log, k: Kind) {
    LineOf(k) in accounts && accounts[LineOf(k)] == Reported(log, k)
  }

  lemma LineWritten(accounts: map<string, int>, log: Log, k: Kind, j: Kind)
    ensures Has(WithLine(accounts, log, k), log, j) <==> j == k || Has(accounts, log, j)
    ensures WithLine(accounts, log, k).Keys == accounts.Keys + {LineOf(k)}
  {}

  lemma SystemReports(log: Log, k: Kind)
    requires k in {Psp, Bank, Payout, Fee, Expense}
    ensures Has(SystemAccounts(log), log, k)
  {
    var one := WithLine(map[], log, Psp);
    var two := WithLine(one, log, Bank);
    var three := WithLine(two, log, Payout);
    var four := WithLine(three, log, Fee);
    LineWritten(map[], log, Psp, k);
    LineWritten(one, log, Bank, k);
    LineWritten(two, log, Payout, k);
    LineWritten(three, log, Fee, k);
    LineWritten(four, log, Expense, k);
  }

  /** Each line of the summary reports exactly the accounts of its family, over all users and shipments. */
  lemma SummaryReports(log: Log, k: Kind)
    ensures Has(Summary(log), log, k)
  {
    var five := SystemAccounts(log);
    var six := WithLine(five, log, Wallets);
    var seven := WithLine(six, log, Escrows);
    if k !in {Wallets, Escrows, Promos} {
      SystemReports(log, k);
    }
    LineWritten(five, log, Wallets, k);
    LineWritten(six, log, Escrows, k);
    LineWritten(seven, log, Promos, k);
  }

  // ---- the equation ----------------------------------------------------------------------------

  function Families(log: Log): int {
    Net(log, OfKind(Psp)) + Net(log, OfKind(Bank)) + Net(log, OfKind(Payout)) + Net(log, OfKind(Fee))
    + Net(log, OfKind(Expense)) + Net(log, OfKind(Wallets)) + Net(log, OfKind(Escrows)) + Net(log, OfKind(Promos))
  }

  function LineFamilies(lines: seq<Line>): int {
    Flow(lines, OfKind(Psp)) + Flow(lines, OfKind(Bank)) + Flow(lines, OfKind(Payout)) + Flow(lines, OfKind(Fee))
    + Flow(lines, OfKind(Expense)) + Flow(lines, OfKind(Wallets)) + Flow(lines, OfKind(Escrows)) + Flow(lines, OfKind(Promos))
  }

  function Gain(l: Line, sel: Selector): int {
    if Selects(sel, l.account) then l.credit - l.debit else 0
  }

  lemma FlowLast(lines: seq<Line>, sel: Selector)
    requires lines != []
    ensures Flow(lines, sel) == Flow(lines[..|lines| - 1], sel) + Gain(lines[|lines| - 1], sel)
  {}

  lemma OneFamily(l: Line)
    ensures Gain(l, OfKind(Psp)) + Gain(l, OfKind(Bank)) + Gain(l, OfKind(Payout)) + Gain(l, OfKind(Fee))
            + Gain(l, OfKind(Expense)) + Gain(l, OfKind(Wallets)) + Gain(l, OfKind(Escrows)) + Gain(l, OfKind(Promos))
            == Gain(l, Everything)
  {}

  lemma {:induction false} LinesPartition(lines: seq<Line>)
    ensures LineFamilies(lines) == Flow(lines, Everything)
  {
    if lines != [] {
      LinesPartition(lines[..|lines| - 1]);
      OneFamily(lines[|lines| - 1]);
      forall sel ensures Flow(lines, sel) == Flow(lines[..|lines| - 1], sel) + Gain(lines[|lines| - 1], sel) {
        FlowLast(lines, sel);
      }
    }
  }

  lemma {:induction false} FamiliesCancel(log: Log)
    requires forall i :: 0 <= i < |log| ==> Balanced(log[i].lines)
    ensures Families(log) == 0
  {
    if log != [] {
      FamiliesCancel(log[..|log| - 1]);
      LinesPartition(log[|log| - 1].lines);
      assert Balanced(log[|log| - 1].lines);
    }
  }

  /** The amount on the summary line of a family. */
  function At(log: Log, k: Kind): (amount: int)
    ensures amount == Reported(log, k)
  {
    SummaryReports(log, k);
    Summary(log)[LineOf(k)]
  }

  /** Assets and expenses equal revenue and liabilities: PSP + bank + payout + promo expense
      = fee revenue + wallets + escrows + promo credit, in every reachable state. */
  lemma TreasuryEquation(s: State)
    requires Reachable(s)
    ensures At(s.log, Psp) + At(s.log, Bank) + At(s.log, Payout) + At(s.log, Expense) ==
            At(s.log, Fee) + At(s.log, Wallets) + At(s.log, Escrows) + At(s.log, Promos)
  {
    ReachableGood(s);
    FamiliesCancel(s.log);
  }

  lemma OneAccountFamily(log: Log, k: Kind, system: Account)
    requires forall a :: KindOf(a) == k <==> a == system
    ensures Net(log, OfKind(k)) == Net(log, Of(system))
  {
    SameSums(log, OfKind(k), Of(system));
  }

  /** The signs of the lines: PSP clearing is reported as the money the provider took in, and payout clearing as the money that
      withdrawals have taken out. */
  lemma ClearingLines(s: State)
    requires Reachable(s)
    ensures At(s.log, Psp) == Total(ConfirmedTopups(s)) + Total(PspFunded(s))
    ensures At(s.log, Payout) == -Total(OpenWithdrawals(s))
  {
    OneAccountFamily(s.log, Psp, PspClearing);
    OneAccountFamily(s.log, Payout, PayoutClearing);
    PspEquation(s);
    PayoutEquation(s);
  }
}
