/** Ledger accounts and the account codes they are stored under. */
module Accounts {
  import opened Results

  datatype Account =
    | PspClearing
    | BankMain
    | PayoutClearing
    | FeeRevenue
    | PromoExpense
    | Wallet(user: string)
    | Promo(user: string)
    | Escrow(shipment: string)

  /** The eight lines of the treasury summary: one per system account, one per family of liabilities. */
  datatype Kind = Psp | Bank | Payout | Fee | Expense | Wallets | Promos | Escrows

  function KindOf(a: Account): Kind {
    match a
    case PspClearing => Psp
    case BankMain => Bank
    case PayoutClearing => Payout
    case FeeRevenue => Fee
    case PromoExpense => Expense
    case Wallet(_) => Wallets
    case Promo(_) => Promos
    case Escrow(_) => Escrows
  }

  const WALLET_PREFIX := "USER:"
  const WALLET_SUFFIX := ":IRT:WALLET_LIABILITY"
  const PROMO_SUFFIX := ":IRT:PROMO_CREDIT_LIABILITY"
  const ESCROW_PREFIX := "SHIPMENT:"
  const ESCROW_SUFFIX := ":IRT:ESCROW"

  function Code(a: Account): string {
    match a
    case PspClearing => "IR_PSP_CLEARING"
    case BankMain => "IR_BANK_MAIN"
    case PayoutClearing => "IR_PAYOUT_CLEARING"
    case FeeRevenue => "AIRBAR_FEE_REVENUE"
    case PromoExpense => "AIRBAR_PROMO_EXPENSE"
    case Wallet(u) => WALLET_PREFIX + u + WALLET_SUFFIX
    case Promo(u) => WALLET_PREFIX + u + PROMO_SUFFIX
    case Escrow(s) => ESCROW_PREFIX + s + ESCROW_SUFFIX
  }

  /** The user id inside a code of the given suffix, if there is a non-empty one. */
  function ParseUserID(code: string, suffix: string): Option<string> {
    if |code| <= |WALLET_PREFIX| + |suffix| then None
    else if code[..|WALLET_PREFIX|] != WALLET_PREFIX then None
    else if code[|code| - |suffix|..] != suffix then None
    else Some(code[|WALLET_PREFIX|..|code| - |suffix|])
  }

  function ParseUserIDFromWalletAccount(code: string): Option<string> {
    ParseUserID(code, WALLET_SUFFIX)
  }

  function ParseUserIDFromPromoCreditAccount(code: string): Option<string> {
    ParseUserID(code, PROMO_SUFFIX)
  }

  /** Text wrapped in a fixed prefix and suffix can be taken out again. */
  lemma Unwrap(prefix: string, x: string, suffix: string)
    ensures var whole := prefix + x + suffix;
            && |whole| == |prefix| + |x| + |suffix|
            && whole[..|prefix|] == prefix
            && whole[|prefix|..|whole| - |suffix|] == x
            && whole[|whole| - |suffix|..] == suffix
  {}

  /** The families cannot be confused whatever the ids contain, colons and suffix look-alikes included. */
  lemma CodesEndApart(a: Account)
    ensures a.Wallet? ==> |Code(a)| >= 26 && Code(a)[|Code(a)| - 12] == 'E' && Code(a)[0] == 'U' && Code(a)[1] == 'S'
    ensures a.Promo? ==> |Code(a)| >= 32 && Code(a)[|Code(a)| - 12] == 'I' && Code(a)[0] == 'U' && Code(a)[1] == 'S'
    ensures a.Escrow? ==> |Code(a)| >= 20 && Code(a)[0] == 'S' && Code(a)[1] == 'H'
    ensures KindOf(a) !in {Wallets, Promos, Escrows} ==> |Code(a)| >= 12 && (Code(a)[0] == 'I' || Code(a)[0] == 'A')
  {
    match a
    case Wallet(u) =>
      Unwrap(WALLET_PREFIX, u, WALLET_SUFFIX);
      var c := Code(a);
      assert c[|c| - 12] == c[|c| - 21..][9];
    case Promo(u) =>
      Unwrap(WALLET_PREFIX, u, PROMO_SUFFIX);
      var c := Code(a);
      assert c[|c| - 12] == c[|c| - 27..][15];
    case Escrow(s) =>
      Unwrap(ESCROW_PREFIX, s, ESCROW_SUFFIX);
    case _ =>
  }

  /** Account codes are injective over every account, for arbitrary user and shipment ids. */
  lemma CodeInjective(a: Account, b: Account)
    requires Code(a) == Code(b)
    ensures a == b
  {
    CodesEndApart(a);
    CodesEndApart(b);
    match a
    case Wallet(u) =>
      Unwrap(WALLET_PREFIX, u, WALLET_SUFFIX);
      Unwrap(WALLET_PREFIX, b.user, WALLET_SUFFIX);
    case Promo(u) =>
      Unwrap(WALLET_PREFIX, u, PROMO_SUFFIX);
      Unwrap(WALLET_PREFIX, b.user, PROMO_SUFFIX);
    case Escrow(s) =>
      Unwrap(ESCROW_PREFIX, s, ESCROW_SUFFIX);
      Unwrap(ESCROW_PREFIX, b.shipment, ESCROW_SUFFIX);
    case _ =>
      SystemCodes(a, b);
  }

  lemma SystemCodes(a: Account, b: Account)
    requires KindOf(a) !in {Wallets, Promos, Escrows} && KindOf(b) !in {Wallets, Promos, Escrows}
    requires Code(a) == Code(b)
    ensures a == b
  {}

  /** Parsing recognises exactly the wallet accounts of non-empty user ids, and returns that id. */
  lemma ParseWalletRoundTrip(a: Account)
    ensures ParseUserIDFromWalletAccount(Code(a)) == if a.Wallet? && a.user != "" then Some(a.user) else None
  {
    CodesEndApart(a);
    var c := Code(a);
    match a
    case Wallet(u) => Unwrap(WALLET_PREFIX, u, WALLET_SUFFIX);
    case Promo(u) =>
      assert c[|c| - 21..][9] == c[|c| - 12] == 'I';
      assert WALLET_SUFFIX[9] == 'E';
    case _ =>
      if |c| > 5 {
        assert c[..5][0] == c[0];
        assert c[..5][1] == c[1];
        assert WALLET_PREFIX[0] == 'U';
      }
  }

  /** The same for promo credit accounts. */
  lemma ParsePromoRoundTrip(a: Account)
    ensures ParseUserIDFromPromoCreditAccount(Code(a)) == if a.Promo? && a.user != "" then Some(a.user) else None
  {
    CodesEndApart(a);
    var c := Code(a);
    match a
    case Promo(u) => Unwrap(WALLET_PREFIX, u, PROMO_SUFFIX);
    case Wallet(u) =>
      if |c| > 32 {
        assert c[|c| - 27..][15] == c[|c| - 12] == 'E';
        assert PROMO_SUFFIX[15] == 'I';
      }
    case _ =>
      if |c| > 5 {
        assert c[..5][0] == c[0];
        assert WALLET_PREFIX[0] == 'U';
      }
  }
}
