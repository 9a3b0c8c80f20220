/** Runs from empty tables into the states where a promise of the documentation fails. */
module Witnesses {
  import opened Results
  import opened Int64
  import opened Accounts
  import opened Refs
  import opened Ledger
  import opened Postings
  import opened Domain
  import opened Machine
  import opened Success
  import Races = WithdrawalRaces

  /** A call whose transaction commits. */
  function Does(u: UseCase): Command {
    Command(u, true)
  }

  lemma RunNext(cs: seq<Command>, c: Command)
    ensures Run(EMPTY, cs + [c]) == Execute(Run(EMPTY, cs), c).state
  {
    assert (cs + [c])[..|cs|] == cs;
  }

  lemma RunTwo(cs: seq<Command>, first: Command, second: Command)
    ensures Run(EMPTY, cs + [first, second]) == Execute(Execute(Run(EMPTY, cs), first).state, second).state
  {
    RunNext(cs, first);
    RunNext(cs + [first], second);
    assert cs + [first, second] == (cs + [first]) + [second];
  }

  lemma RunFirst(first: Command, second: Command)
    ensures Run(EMPTY, [first, second]) == Execute(Execute(EMPTY, first).state, second).state
  {
    RunTwo([], first, second);
    assert [] + [first, second] == [first, second];
  }

  lemma TransferPosts(log: Log, j: Journal, debited: Account, credited: Account, amount: int)
    requires j == Transfer(j.refType, j.refId, debited, credited, amount) && amount > 0
    requires j.refId != "" && (j.refType, j.refId) !in Keys(log)
    ensures Post(log, j) == Ok(log + [j]) && Keys(log + [j]) == Keys(log) + {(j.refType, j.refId)}
    ensures forall a :: Debits(log + [j], Of(a)) == Debits(log, Of(a)) + if a == debited then amount else 0
    ensures forall a :: Credits(log + [j], Of(a)) == Credits(log, Of(a)) + if a == credited then amount else 0
  {
    TransferSound(j.refType, j.refId, debited, credited, amount);
    TwoLines(j.lines[0], j.lines[1]);
    Append(log, j);
  }

  // ---- a negative promo balance ----------------------------------------------------------------

  function GrantAndOpen(id: Uuid, user: string, amount: int64, key: string, ship: string): seq<Command> {
    [Does(DoGrantCredit(id, user, amount, "reason", "admin", key)), Does(DoCreateEscrow(ship, "carrier", user, amount))]
  }

  lemma GrantedFirst(id: Uuid, user: string, amount: int64, key: string)
    requires user != "" && amount > 0 && key != ""
    ensures GrantCredit(EMPTY, id, user, amount, "reason", "admin", key).state ==
            EMPTY.(log := [GrantJournal(id, user, amount)], grants := map[id := GrantRow(user, amount, Active, key)])
  {
    TransferPosts([], GrantJournal(id, user, amount), PromoExpense, Promo(user), amount);
    assert [] + [GrantJournal(id, user, amount)] == [GrantJournal(id, user, amount)];
  }

  lemma GrantedAndOpen(id: Uuid, user: string, amount: int64, key: string, ship: string)
    requires user != "" && amount > 0 && key != "" && ship != ""
    ensures Run(EMPTY, GrantAndOpen(id, user, amount, key, ship)) ==
            EMPTY.(log := [GrantJournal(id, user, amount)], grants := map[id := GrantRow(user, amount, Active, key)],
                   escrows := map[ship := EscrowRow("carrier", user, amount, Created, "", NoSource, 0)])
  {
    var cs := GrantAndOpen(id, user, amount, key, ship);
    GrantedFirst(id, user, amount, key);
    RunFirst(cs[0], cs[1]);
  }

  /** A grant that is spent whole, and then reversed. */
  function SpendAndReverse(id: Uuid, user: string, amount: int64, key: string, ship: string): seq<Command> {
    GrantAndOpen(id, user, amount, key, ship)
    + [Does(DoPayFromWallet(ship, user, amount)), Does(DoReverseCreditGrant(id, "reason", "admin"))]
  }

  lemma GrantedSums(log: Log, id: Uuid, user: string, amount: int64)
    requires log == [GrantJournal(id, user, amount)] && amount > 0
    ensures Balance(log, Of(Promo(user))) == Ok(amount) && Balance(log, Of(Wallet(user))) == Ok(0)
    ensures Keys(log) == {(PromoCreditGrant, id)}
  {
    TransferPosts([], GrantJournal(id, user, amount), PromoExpense, Promo(user), amount);
    assert [] + log == log;
  }

  lemma PaysWhole(log: Log, user: string, ship: string, amount: int64)
    requires amount > 0
    ensures var j := PayJournal(user, ship, Split(amount, 0), amount);
            && Net(log + [j], Of(Promo(user))) == Net(log, Of(Promo(user))) - amount
            && Keys(log + [j]) == Keys(log) + {(PromoCreditToEscrow, WalletPayRef(ship))}
  {
    Append(log, PayJournal(user, ship, Split(amount, 0), amount));
    PayLinesSums(user, ship, Split(amount, 0), amount);
  }

  lemma SpentNext(s: State, id: Uuid, user: string, amount: int64, ship: string)
    requires s.log == [GrantJournal(id, user, amount)] && Payable(s, ship, user, amount) && amount > 0
    ensures var t := Execute(s, Does(DoPayFromWallet(ship, user, amount))).state;
            t.grants == s.grants && (PromoCreditReverse, ReverseRef(id)) !in Keys(t.log) && Net(t.log, Of(Promo(user))) == 0
  {
    GrantedSums(s.log, id, user, amount);
    PaymentAccepted(amount, amount, 0, user, ship);
    PaysWhole(s.log, user, ship, amount);
  }

  lemma ReversedNext(s: State, id: Uuid, user: string, amount: int64, key: string)
    requires amount > 0 && id in s.grants && s.grants[id] == GrantRow(user, amount, Active, key)
    requires (PromoCreditReverse, ReverseRef(id)) !in Keys(s.log)
    ensures var t := Execute(s, Does(DoReverseCreditGrant(id, "reason", "admin"))).state;
            Net(t.log, Of(Promo(user))) == Net(s.log, Of(Promo(user))) - amount
  {
    ExecuteReversal(s, Does(DoReverseCreditGrant(id, "reason", "admin")));
    ReversedLog(s, id, user, amount, key);
  }

  lemma ReversedLog(s: State, id: Uuid, user: string, amount: int64, key: string)
    requires amount > 0 && id in s.grants && s.grants[id] == GrantRow(user, amount, Active, key)
    requires (PromoCreditReverse, ReverseRef(id)) !in Keys(s.log)
    ensures Net(ReverseCreditGrant(s, id, "reason", "admin").state.log, Of(Promo(user))) ==
            Net(s.log, Of(Promo(user))) - amount
  {
    TransferPosts(s.log, ReverseJournal(id, user, amount), Promo(user), PromoExpense, amount);
  }

  /** The promo balance of any user can be driven to minus any amount, by a grant that is reversed after it was spent. */
  lemma NegativePromoReached(id: Uuid, user: string, amount: int64, key: string, ship: string)
    requires user != "" && amount > 0 && key != "" && ship != ""
    ensures Net(Run(EMPTY, SpendAndReverse(id, user, amount, key, ship)).log, Of(Promo(user))) == -amount
  {
    var front := GrantAndOpen(id, user, amount, key, ship);
    var pay, reverse := Does(DoPayFromWallet(ship, user, amount)), Does(DoReverseCreditGrant(id, "reason", "admin"));
    RunTwo(front, pay, reverse);
    GrantedAndOpen(id, user, amount, key, ship);
    SpentNext(Run(EMPTY, front), id, user, amount, ship);
    ReversedNext(Execute(Run(EMPTY, front), pay).state, id, user, amount, key);
  }

  // ---- a grant without its journal -------------------------------------------------------------

  /** A grant whose commit fails: the caller is told so, nothing is posted, and yet the grant stays in the table as
      active. */
  lemma LostGrantReached(id: Uuid, user: string, amount: int64, key: string)
    requires user != "" && amount > 0 && key != ""
    ensures var d := Execute(EMPTY, Command(DoGrantCredit(id, user, amount, "reason", "admin", key), false));
            && d.result == Err(CommitFailed) && d.state.log == []
            && d.state.grants == map[id := GrantRow(user, amount, Active, key)]
  {
    GrantedFirst(id, user, amount, key);
    TransferPosts([], GrantJournal(id, user, amount), PromoExpense, Promo(user), amount);
  }

  // ---- an escrow funded from nothing -----------------------------------------------------------

  function OpenAndFund(ship: string, payer: string, amount: int64, order: string): seq<Command> {
    [Does(DoCreateEscrow(ship, "carrier", payer, amount)), Does(DoFundEscrow(ship, order))]
  }

  function OpenedAndFunded(ship: string, payer: string, amount: int64, order: string): State {
    EMPTY.(log := [PspLeg(ship, order, payer, amount), EscrowLeg(ship, order, payer, amount)],
           escrows := map[ship := EscrowRow("carrier", payer, amount, Funded, order, FromPsp, 0)])
  }

  lemma FundedSums(ship: string, payer: string, amount: int64, order: string)
    requires ship != "" && amount > 0
    ensures var p, q := PspLeg(ship, order, payer, amount), EscrowLeg(ship, order, payer, amount);
            && PostAll([], [p, q]) == Ok([p, q])
            && Keys([p, q]) == {(PspToWallet, PspWalletRef(ship, order)), (WalletToEscrow, WalletEscrowRef(ship, order))}
            && (forall a :: Debits([p, q], Of(a)) == (if a == PspClearing then amount else 0) + if a == Wallet(payer) then amount else 0)
            && (forall a :: Credits([p, q], Of(a)) == (if a == Wallet(payer) then amount else 0) + if a == Escrow(ship) then amount else 0)
  {
    var p, q := PspLeg(ship, order, payer, amount), EscrowLeg(ship, order, payer, amount);
    TransferPosts([], p, PspClearing, Wallet(payer), amount);
    assert [] + [p] == [p] && [p] + [q] == [p, q] && [p, q][1..] == [q];
    TransferPosts([p], q, Wallet(payer), Escrow(ship), amount);
    PostAllOne([p], q);
  }

  lemma FundedHolds(ship: string, payer: string, amount: int64, order: string)
    requires ship != "" && amount > 0
    ensures Balance(OpenedAndFunded(ship, payer, amount, order).log, Of(Escrow(ship))) == Ok(amount)
  {
    FundedSums(ship, payer, amount, order);
  }

  lemma FundsOpen(s: State, ship: string, payer: string, amount: int64, order: string)
    requires ship != "" && amount > 0 && order != ""
    requires s == EMPTY.(escrows := map[ship := EscrowRow("carrier", payer, amount, Created, "", NoSource, 0)])
    ensures FundEscrow(s, ship, order).state == OpenedAndFunded(ship, payer, amount, order)
  {
    FundedSums(ship, payer, amount, order);
  }

  lemma OpenAndFunds(ship: string, payer: string, amount: int64, order: string)
    requires ship != "" && payer != "" && amount > 0 && order != ""
    ensures Run(EMPTY, OpenAndFund(ship, payer, amount, order)) == OpenedAndFunded(ship, payer, amount, order)
  {
    var cs := OpenAndFund(ship, payer, amount, order);
    RunFirst(cs[0], cs[1]);
    FundsOpen(Execute(EMPTY, cs[0]).state, ship, payer, amount, order);
  }

  /** A first and then an equal second partial refund in an escrow that could bear both. */
  lemma RefundedTwice(s: State, ship: string, payer: string, amount: int64, order: string, refund: int64)
    requires s == OpenedAndFunded(ship, payer, amount, order) && ship != "" && 0 < refund && refund + refund <= amount
    ensures var t := PartialRefundEscrow(s, ship, refund).state;
            && Net(t.log, Of(Escrow(ship))) == amount - refund
            && PartialRefundEscrow(t, ship, refund).result == Err(DuplicateJournal)
  {
    var leg := RefundWalletLeg(ship, payer, refund);
    FundedSums(ship, payer, amount, order);
    assert RefundJournals(payer, ship, 0, refund) == [leg];
    PostAllOne(s.log, leg);
    TransferPosts(s.log, leg, Escrow(ship), Wallet(payer), refund);
    PostAllOne(s.log + [leg], leg);
  }

  /** Two equal partial refunds of an escrow that could bear both: the second is refused as a duplicate of the first. */
  lemma EqualRefundRefused(ship: string, payer: string, amount: int64, order: string, refund: int64)
    requires ship != "" && payer != "" && order != "" && 0 < refund && refund + refund <= amount
    ensures var again := Does(DoPartialRefundEscrow(ship, refund));
            var s := Run(EMPTY, OpenAndFund(ship, payer, amount, order) + [again]);
            && Net(s.log, Of(Escrow(ship))) == amount - refund >= refund
            && Execute(s, again).result == Err(DuplicateJournal)
  {
    var front := OpenAndFund(ship, payer, amount, order);
    RunNext(front, Does(DoPartialRefundEscrow(ship, refund)));
    OpenAndFunds(ship, payer, amount, order);
    RefundedTwice(Run(EMPTY, front), ship, payer, amount, order, refund);
  }

  lemma NoFee(amount: int64, percent: real)
    requires 0 < amount && 0.0 <= percent <= 100.0 && amount as real * percent < 100.0
    ensures FeeProduct(amount, percent) == 0
  {
    PercentFee(amount, percent);
  }

  lemma ReleaseOfNoFee(s: State, ship: string)
    requires ship != "" && ship in s.escrows && s.escrows[ship].status == DisputeWindow
    requires Balance(s.log, Of(Escrow(ship))).Ok? && Net(s.log, Of(Escrow(ship))) > 0
    ensures ReleaseEscrow(s, ship, 0).result == Err(InvalidEntry)
  {
    ReleaseSound(ship, s.escrows[ship].carrier, Net(s.log, Of(Escrow(ship))), 0);
  }

  /** A delivered escrow so small that its fee rounds down to nothing cannot be released. */
  lemma SmallReleaseRefused(ship: string, payer: string, amount: int64, order: string, percent: real)
    requires ship != "" && payer != "" && amount > 0 && order != ""
    requires 0.0 <= percent <= 100.0 && amount as real * percent < 100.0
    ensures var s := Run(EMPTY, OpenAndFund(ship, payer, amount, order) + [Does(DoMarkDelivered(ship))]);
            && Net(s.log, Of(Escrow(ship))) == amount && FeeProduct(amount, percent) == 0
            && Execute(s, Does(DoReleaseEscrow(ship, 0))).result == Err(InvalidEntry)
  {
    var front := OpenAndFund(ship, payer, amount, order);
    RunNext(front, Does(DoMarkDelivered(ship)));
    OpenAndFunds(ship, payer, amount, order);
    FundedHolds(ship, payer, amount, order);
    ReleaseOfNoFee(MarkDelivered(Run(EMPTY, front), ship).state, ship);
    NoFee(amount, percent);
  }

  // ---- two keys that are one -------------------------------------------------------------------

  lemma ToppedUp(s: State, id: Uuid, payer: string, amount: int64)
    requires payer != "" && amount > 0
    requires id !in s.orders && id !in s.verifyEvents && (WalletTopup, TopupRef(id)) !in Keys(s.log)
    ensures var t := Execute(s, Does(DoCreateWalletTopupOrder(id, payer, amount, "url", "url", Some("track"), true))).state;
            var u := Execute(t, Does(DoVerifyOrder(id, None, Some(amount)))).state;
            u.log == s.log + [TopupJournal(id, payer, amount)] && u.escrows == s.escrows
  {
    TransferPosts(s.log, TopupJournal(id, payer, amount), PspClearing, Wallet(payer), amount);
  }

  /** A shipment b is funded under the order id "c:wallet-pay"; its payer tops up the wallet and opens the escrow of another
      shipment, "b:wallet-escrow:c". */
  function Colliding(id: Uuid, b: string, c: string, payer: string, amount: int64): seq<Command> {
    OpenAndFund(b, payer, amount, c + ":wallet-pay")
    + [Does(DoCreateWalletTopupOrder(id, payer, amount, "url", "url", Some("track"), true)),
       Does(DoVerifyOrder(id, None, Some(amount)))]
    + [Does(DoCreateEscrow(b + ":wallet-escrow:" + c, "carrier", payer, amount))]
  }

  lemma CollidingSums(log: Log, id: Uuid, b: string, c: string, payer: string, amount: int64)
    requires b != "" && amount > 0 && amount + amount <= MAX
    requires log == [PspLeg(b, c + ":wallet-pay", payer, amount), EscrowLeg(b, c + ":wallet-pay", payer, amount)]
                    + [TopupJournal(id, payer, amount)]
    ensures Affords(log, payer, amount) && Net(log, Of(Promo(payer))) == 0
    ensures (WalletToEscrow, WalletEscrowRef(b, c + ":wallet-pay")) in Keys(log)
  {
    var order := c + ":wallet-pay";
    FundedSums(b, payer, amount, order);
    TransferPosts([PspLeg(b, order, payer, amount), EscrowLeg(b, order, payer, amount)], TopupJournal(id, payer, amount),
                  PspClearing, Wallet(payer), amount);
  }

  lemma CollidingRefused(s: State, id: Uuid, b: string, c: string, payer: string, amount: int64)
    requires b != "" && amount > 0 && amount + amount <= MAX && payer != ""
    requires s.log == OpenedAndFunded(b, payer, amount, c + ":wallet-pay").log + [TopupJournal(id, payer, amount)]
    requires Payable(s, b + ":wallet-escrow:" + c, payer, amount)
    ensures Affords(s.log, payer, amount)
    ensures Execute(s, Does(DoPayFromWallet(b + ":wallet-escrow:" + c, payer, amount))).result == Err(DuplicateJournal)
  {
    CollidingSums(s.log, id, b, c, payer, amount);
    WalletPayCollision(b, c);
    PayOutcome(s, b + ":wallet-escrow:" + c, payer, amount);
  }

  lemma CollidingRun(id: Uuid, b: string, c: string, payer: string, amount: int64)
    requires b != "" && payer != "" && amount > 0
    ensures var s := Run(EMPTY, Colliding(id, b, c, payer, amount));
            && s.log == OpenedAndFunded(b, payer, amount, c + ":wallet-pay").log + [TopupJournal(id, payer, amount)]
            && Payable(s, b + ":wallet-escrow:" + c, payer, amount)
  {
    var front := OpenAndFund(b, payer, amount, c + ":wallet-pay");
    var topup := Does(DoCreateWalletTopupOrder(id, payer, amount, "url", "url", Some("track"), true));
    var verify := Does(DoVerifyOrder(id, None, Some(amount)));
    var last := Does(DoCreateEscrow(b + ":wallet-escrow:" + c, "carrier", payer, amount));
    RunTwo(front, topup, verify);
    RunNext(front + [topup, verify], last);
    OpenAndFunds(b, payer, amount, c + ":wallet-pay");
    FundedSums(b, payer, amount, c + ":wallet-pay");
    ToppedUp(Run(EMPTY, front), id, payer, amount);
    assert |b + ":wallet-escrow:" + c| > |b|;
  }

  /** A CREATED escrow that its payer's wallet covers, and whose payment is refused as a duplicate of another shipment's
      funding. */
  lemma CollisionReached(id: Uuid, b: string, c: string, payer: string, amount: int64)
    requires b != "" && payer != "" && amount > 0 && amount + amount <= MAX
    ensures var ship := b + ":wallet-escrow:" + c;
            var s := Run(EMPTY, Colliding(id, b, c, payer, amount));
            && Payable(s, ship, payer, amount) && Affords(s.log, payer, amount)
            && Execute(s, Does(DoPayFromWallet(ship, payer, amount))).result == Err(DuplicateJournal)
  {
    CollidingRun(id, b, c, payer, amount);
    CollidingRefused(Run(EMPTY, Colliding(id, b, c, payer, amount)), id, b, c, payer, amount);
  }

  // ---- a reserve given back twice --------------------------------------------------------------

  /** An approval loads the pending row, a rejection goes through, the approval writes, and a failure goes through. */
  function ApprovedLate(id: string): seq<Races.Action> {
    [Races.New(Races.Approving, id)] + [Races.Resume(0, true)] + [Races.Whole(Does(DoRejectWithdrawal(id)))]
    + [Races.Resume(0, true)] + [Races.Whole(Does(DoFailWithdrawal(id, "reason")))]
  }

  lemma Follow(r: Races.Race, before: seq<Races.Action>, a: Races.Action)
    ensures Races.Interleave(r, before + [a]) == Races.Act(Races.Interleave(r, before), a)
  {
    assert (before + [a])[..|before|] == before;
  }

  lemma ApprovedLateIs(r: Races.Race, id: string)
    ensures Races.Interleave(r, ApprovedLate(id)) ==
            Races.Act(Races.Act(Races.Act(Races.Act(Races.Act(r, Races.New(Races.Approving, id)), Races.Resume(0, true)),
                                          Races.Whole(Does(DoRejectWithdrawal(id)))), Races.Resume(0, true)),
                      Races.Whole(Does(DoFailWithdrawal(id, "reason"))))
  {
    var a, b := [Races.New(Races.Approving, id)], [Races.Resume(0, true)];
    var c := [Races.Whole(Does(DoRejectWithdrawal(id)))];
    Races.InterleaveOne(r, a[0]);
    Follow(r, a, b[0]);
    Follow(r, a + b, c[0]);
    Follow(r, a + b + c, b[0]);
    Follow(r, a + b + c + b, Races.Whole(Does(DoFailWithdrawal(id, "reason"))));
  }

  /** One pending withdrawal whose reserve is posted. */
  predicate Reserved(s: State, id: string, user: string, amount: int) {
    && id != "" && amount > 0 && id in s.withdrawals && s.withdrawals[id] == WithdrawalRow(user, amount, WPending)
    && (WithdrawalRejectReversal, RejectRef(id)) !in Keys(s.log) && (WithdrawalRejectReversal, FailRef(id)) !in Keys(s.log)
  }

  lemma RejectedState(s: State, id: string, user: string, amount: int)
    requires Reserved(s, id, user, amount)
    ensures var t := Execute(s, Does(DoRejectWithdrawal(id))).state;
            && t.log == s.log + [RejectReversal(id, user, amount)]
            && t.withdrawals == s.withdrawals[id := WithdrawalRow(user, amount, Rejected)]
            && (WithdrawalRejectReversal, FailRef(id)) !in Keys(t.log)
  {
    RejectedRow(s, id, user, amount);
  }

  lemma RejectedRow(s: State, id: string, user: string, amount: int)
    requires Reserved(s, id, user, amount)
    ensures var d := RejectWithdrawal(s, id);
            && d.result.Ok? && d.state.log == s.log + [RejectReversal(id, user, amount)]
            && d.state.withdrawals == s.withdrawals[id := WithdrawalRow(user, amount, Rejected)]
            && (WithdrawalRejectReversal, FailRef(id)) !in Keys(d.state.log)
  {
    OneIdRefsInjective(id, id);
    TransferPosts(s.log, RejectReversal(id, user, amount), PayoutClearing, Wallet(user), amount);
  }

  lemma FailedState(s: State, id: string, user: string, amount: int)
    requires id != "" && amount > 0 && id in s.withdrawals && s.withdrawals[id] == WithdrawalRow(user, amount, Approved)
    requires (WithdrawalRejectReversal, FailRef(id)) !in Keys(s.log)
    ensures Execute(s, Does(DoFailWithdrawal(id, "reason"))).state.log == s.log + [FailReversal(id, user, amount)]
  {
    FailedLog(s, id, user, amount);
  }

  lemma FailedLog(s: State, id: string, user: string, amount: int)
    requires id != "" && amount > 0 && id in s.withdrawals && s.withdrawals[id] == WithdrawalRow(user, amount, Approved)
    requires (WithdrawalRejectReversal, FailRef(id)) !in Keys(s.log)
    ensures var d := FailWithdrawal(s, id, "reason");
            d.result.Ok? && d.state.log == s.log + [FailReversal(id, user, amount)]
  {
    TransferPosts(s.log, FailReversal(id, user, amount), PayoutClearing, Wallet(user), amount);
  }

  lemma LateApproval(s: State, id: string, user: string, amount: int)
    requires Reserved(s, id, user, amount)
    ensures var r := Races.Interleave(Races.Race(s, []), ApprovedLate(id));
            r.state.log == s.log + [RejectReversal(id, user, amount)] + [FailReversal(id, user, amount)]
  {
    ApprovedLateIs(Races.Race(s, []), id);
    RejectedState(s, id, user, amount);
    var rejected := Execute(s, Does(DoRejectWithdrawal(id))).state;
    var w := WithdrawalRow(user, amount, WPending);
    assert Races.Act(Races.Race(s, []), Races.New(Races.Approving, id)) == Races.Race(s, [Races.Loading(Races.Approving, id)]);
    assert Races.Load(s, Races.Approving, id) == Races.Writing(Races.Approving, id, w);
    var approved := Races.Write(rejected, Races.Approving, id, w, true);
    FailedState(approved, id, user, amount);
  }

  lemma TwiceCredits(log: Log, id: string, user: string, amount: int)
    requires amount > 0 && (WithdrawalRejectReversal, RejectRef(id)) !in Keys(log)
    requires (WithdrawalRejectReversal, FailRef(id)) !in Keys(log)
    ensures Net(log + [RejectReversal(id, user, amount)] + [FailReversal(id, user, amount)], Of(Wallet(user))) ==
            Net(log, Of(Wallet(user))) + amount + amount
  {
    OneIdRefsInjective(id, id);
    TransferPosts(log, RejectReversal(id, user, amount), PayoutClearing, Wallet(user), amount);
    TransferPosts(log + [RejectReversal(id, user, amount)], FailReversal(id, user, amount), PayoutClearing, Wallet(user), amount);
  }

  /** A topup of an amount, withdrawn whole. */
  function TopUpAndWithdraw(order: Uuid, id: Uuid, user: string, amount: int64): seq<Command> {
    [Does(DoCreateWalletTopupOrder(order, user, amount, "url", "url", Some("track"), true)),
     Does(DoVerifyOrder(order, None, Some(amount)))]
    + [Does(DoCreateWithdrawal(id, user, amount, "iban", true, true))]
  }

  lemma ReservedAfter(s: State, id: Uuid, user: string, amount: int64, order: string)
    requires s.log == [] + [TopupJournal(order, user, amount)] && s.withdrawals == map[] && user != "" && amount > 0
    ensures var t := Execute(s, Does(DoCreateWithdrawal(id, user, amount, "iban", true, true))).state;
            Reserved(t, id, user, amount) && Net(t.log, Of(Wallet(user))) == 0
  {
    ReservedRow(s, id, user, amount, order);
  }

  lemma ReservedRow(s: State, id: Uuid, user: string, amount: int64, order: string)
    requires s.log == [] + [TopupJournal(order, user, amount)] && s.withdrawals == map[] && user != "" && amount > 0
    ensures var d := CreateWithdrawal(s, id, user, amount, "iban", true, true);
            d.result.Ok? && Reserved(d.state, id, user, amount) && Net(d.state.log, Of(Wallet(user))) == 0
  {
    TransferPosts([], TopupJournal(order, user, amount), PspClearing, Wallet(user), amount);
    TransferPosts(s.log, ReserveJournal(id, user, amount), Wallet(user), PayoutClearing, amount);
  }

  lemma ToppedUpFirst(order: Uuid, user: string, amount: int64)
    requires user != "" && amount > 0
    ensures var topup := Does(DoCreateWalletTopupOrder(order, user, amount, "url", "url", Some("track"), true));
            var s := Execute(Execute(EMPTY, topup).state, Does(DoVerifyOrder(order, None, Some(amount)))).state;
            s.log == [] + [TopupJournal(order, user, amount)] && s.withdrawals == map[]
  {
    ToppedUp(EMPTY, order, user, amount);
  }

  lemma WithdrawnWhole(order: Uuid, id: Uuid, user: string, amount: int64)
    requires user != "" && amount > 0
    ensures var s := Run(EMPTY, TopUpAndWithdraw(order, id, user, amount));
            Reserved(s, id, user, amount) && Net(s.log, Of(Wallet(user))) == 0
  {
    var topup := Does(DoCreateWalletTopupOrder(order, user, amount, "url", "url", Some("track"), true));
    var verify := Does(DoVerifyOrder(order, None, Some(amount)));
    RunFirst(topup, verify);
    RunNext([topup, verify], Does(DoCreateWithdrawal(id, user, amount, "iban", true, true)));
    ToppedUpFirst(order, user, amount);
    ReservedAfter(Execute(Execute(EMPTY, topup).state, verify).state, id, user, amount, order);
  }

  /** From empty tables: a user tops up an amount and withdraws it all, and an approval that comes too late lets the reserve
      back twice, so that the wallet ends with double the amount. */
  lemma ReturnedTwiceReached(order: Uuid, id: Uuid, user: string, amount: int64)
    requires user != "" && amount > 0
    ensures var s := Run(EMPTY, TopUpAndWithdraw(order, id, user, amount));
            var t := Races.Interleave(Races.Race(s, []), ApprovedLate(id)).state;
            Net(t.log, Of(Wallet(user))) == amount + amount
  {
    var s := Run(EMPTY, TopUpAndWithdraw(order, id, user, amount));
    WithdrawnWhole(order, id, user, amount);
    LateApproval(s, id, user, amount);
    TwiceCredits(s.log, id, user, amount);
  }
}
