/** What every balance is made of, in every state that runs of use cases reach. */
module Balances {
  import opened Accounts
  import opened Ledger
  import opened Domain
  import opened Machine
  import opened Story
  import opened Totals
  import opened Effects
  import opened Moves
  import opened Preservation
  import opened Bookkeeping
  import opened Steps

  lemma ExplainedAt(s: State, a: Account)
    requires Agrees(s)
    ensures Net(s.log, Of(a)) == Explained(s, a)
  {}

  // ---- the parts of a balance ------------------------------------------------------------------

  ghost function TopupsOf(s: State, user: string): map<string, int> {
    map id | id in s.orders && s.orders[id].purpose == TopUp && s.orders[id].status == Confirmed && s.orders[id].payer == user
      :: s.orders[id].amount
  }

  ghost function ConfirmedTopups(s: State): map<string, int> {
    map id | id in s.orders && s.orders[id].purpose == TopUp && s.orders[id].status == Confirmed :: s.orders[id].amount
  }

  ghost function WithdrawalsOf(s: State, user: string): map<string, int> {
    map id | id in s.withdrawals && !s.withdrawals[id].status.Returned() && s.withdrawals[id].user == user
      :: s.withdrawals[id].amount
  }

  ghost function OpenWithdrawals(s: State): map<string, int> {
    map id | id in s.withdrawals && !s.withdrawals[id].status.Returned() :: s.withdrawals[id].amount
  }

  /** Wallet money a user has put into escrows; PSP money only passes through the wallet and is not counted. */
  ghost function WalletSpent(s: State, user: string): map<string, int> {
    map ship | ship in s.escrows && s.escrows[ship].payer == user && s.escrows[ship].source != FromPsp
      :: StoryOf(s.log, ship).paid.wallet
  }

  ghost function WalletRefunded(s: State, user: string): map<string, int> {
    map ship | ship in s.escrows && s.escrows[ship].payer == user :: StoryOf(s.log, ship).back.wallet
  }

  /** Balance minus fee of every release to a carrier. */
  ghost function CarrierIncome(s: State, user: string): map<string, int> {
    map ship | ship in s.escrows && s.escrows[ship].carrier == user :: StoryOf(s.log, ship).carrierPaid
  }

  ghost function PspFunded(s: State): map<string, int> {
    map ship | ship in s.escrows && s.escrows[ship].source == FromPsp :: s.escrows[ship].amount
  }

  ghost function ActiveGrantsOf(s: State, user: string): map<string, int> {
    map id | id in s.grants && s.grants[id].status == Active && s.grants[id].user == user :: s.grants[id].amount
  }

  /** Grants whose own journal a failed commit has lost. */
  ghost function LostGrantsOf(s: State, user: string): map<string, int> {
    map id | id in s.grants && !GrantPosted(s.log, id) && s.grants[id].user == user :: s.grants[id].amount
  }

  /** Reversed grants whose reversal a failed commit has lost. */
  ghost function LostReversalsOf(s: State, user: string): map<string, int> {
    map id | id in s.grants && s.grants[id].status == Reversed && !ReversalPosted(s.log, id) && s.grants[id].user == user
      :: s.grants[id].amount
  }

  ghost function PromoSpent(s: State, user: string): map<string, int> {
    map ship | ship in s.escrows && s.escrows[ship].payer == user :: StoryOf(s.log, ship).paid.promo
  }

  ghost function PromoRefunded(s: State, user: string): map<string, int> {
    map ship | ship in s.escrows && s.escrows[ship].payer == user :: StoryOf(s.log, ship).back.promo
  }

  // ---- the equations ---------------------------------------------------------------------------

  function SpentIn(e: EscrowRow, t: Story, user: string): int {
    if e.payer == user && e.source != FromPsp then t.paid.wallet else 0
  }

  function RefundedIn(e: EscrowRow, t: Story, user: string): int {
    if e.payer == user then t.back.wallet else 0
  }

  function IncomeIn(e: EscrowRow, t: Story, user: string): int {
    if e.carrier == user then t.carrierPaid else 0
  }

  /** In a PSP-funded escrow the money in equals the wallet leg, so the pass-through nets to nothing. */
  lemma WalletShare(ship: string, e: EscrowRow, t: Story, user: string)
    requires EscrowOk(e, t)
    ensures EscrowShare(ship, e, t, Wallet(user)) == RefundedIn(e, t, user) + IncomeIn(e, t, user) - SpentIn(e, t, user)
  {}

  lemma WalletEscrowPart(s: State, user: string)
    requires EscrowsOk(s)
    ensures Total(EscrowShares(s, Wallet(user))) ==
            Total(WalletRefunded(s, user)) + Total(CarrierIncome(s, user)) - Total(WalletSpent(s, user))
  {
    var spent := map ship | ship in s.escrows :: SpentIn(s.escrows[ship], StoryOf(s.log, ship), user);
    var back := map ship | ship in s.escrows :: RefundedIn(s.escrows[ship], StoryOf(s.log, ship), user);
    var income := map ship | ship in s.escrows :: IncomeIn(s.escrows[ship], StoryOf(s.log, ship), user);
    var gained := map ship | ship in s.escrows :: back[ship] + income[ship];
    forall ship | ship in s.escrows
      ensures EscrowShares(s, Wallet(user))[ship] == gained[ship] - spent[ship]
    {
      assert EscrowTells(s, ship);
      WalletShare(ship, s.escrows[ship], StoryOf(s.log, ship), user);
    }
    TotalMinus(EscrowShares(s, Wallet(user)), gained, spent);
    TotalAdd(gained, back, income);
    TotalSupport(spent, WalletSpent(s, user));
    TotalSupport(back, WalletRefunded(s, user));
    TotalSupport(income, CarrierIncome(s, user));
  }

  lemma WalletOrderPart(s: State, user: string)
    requires OrdersOk(s) && Serial(s)
    ensures Total(OrderShares(s, Wallet(user))) == Total(TopupsOf(s, user))
  {
    forall id | id in s.orders ensures s.orders[id].status == Confirmed <==> id in s.verifyEvents {
      assert OrderOk(s, id, s.orders[id]);
    }
    TotalSupport(OrderShares(s, Wallet(user)), TopupsOf(s, user));
  }

  lemma WalletWithdrawalPart(s: State, user: string)
    ensures Total(WithdrawalShares(s, Wallet(user))) == -Total(WithdrawalsOf(s, user))
  {
    var zero := map id | id in s.withdrawals :: 0;
    var taken := map id | id in s.withdrawals ::
      if !s.withdrawals[id].status.Returned() && s.withdrawals[id].user == user then s.withdrawals[id].amount else 0;
    TotalMinus(WithdrawalShares(s, Wallet(user)), zero, taken);
    TotalZero(zero);
    TotalSupport(taken, WithdrawalsOf(s, user));
  }

  /** A wallet holds the user's confirmed topups, less withdrawals that were not given back, less what went
      from the wallet into escrows, plus wallet refunds, plus what releases paid out to the user as carrier. */
  lemma WalletEquation(s: State, user: string)
    requires Reachable(s)
    ensures Net(s.log, Of(Wallet(user))) ==
            Total(TopupsOf(s, user)) - Total(WithdrawalsOf(s, user)) - Total(WalletSpent(s, user))
            + Total(WalletRefunded(s, user)) + Total(CarrierIncome(s, user))
  {
    ReachableGood(s);
    WalletEscrowPart(s, user);
    WalletOrderPart(s, user);
    WalletWithdrawalPart(s, user);
    TotalZero(GrantShares(s, Wallet(user)));
    ExplainedAt(s, Wallet(user));
  }

  lemma PromoEscrowPart(s: State, user: string)
    ensures Total(EscrowShares(s, Promo(user))) == Total(PromoRefunded(s, user)) - Total(PromoSpent(s, user))
  {
    var spent := map ship | ship in s.escrows :: if s.escrows[ship].payer == user then StoryOf(s.log, ship).paid.promo else 0;
    var back := map ship | ship in s.escrows :: if s.escrows[ship].payer == user then StoryOf(s.log, ship).back.promo else 0;
    TotalMinus(EscrowShares(s, Promo(user)), back, spent);
    TotalSupport(spent, PromoSpent(s, user));
    TotalSupport(back, PromoRefunded(s, user));
  }

  function ActiveIn(g: GrantRow, user: string): int {
    if g.user == user && g.status == Active then g.amount else 0
  }

  function LostIn(g: GrantRow, posted: bool, user: string): int {
    if g.user == user && !posted then g.amount else 0
  }

  function LostBackIn(g: GrantRow, reversed: bool, user: string): int {
    if g.user == user && g.status == Reversed && !reversed then g.amount else 0
  }

  lemma PromoGrantShare(g: GrantRow, posted: bool, reversed: bool, user: string)
    requires reversed ==> g.status == Reversed
    ensures GrantShare(g, posted, reversed, Promo(user)) ==
            ActiveIn(g, user) + LostBackIn(g, reversed, user) - LostIn(g, posted, user)
  {}

  lemma PromoGrantPart(s: State, user: string)
    requires KeysOk(s)
    ensures Total(GrantShares(s, Promo(user))) ==
            Total(ActiveGrantsOf(s, user)) + Total(LostReversalsOf(s, user)) - Total(LostGrantsOf(s, user))
  {
    var active := map id | id in s.grants :: ActiveIn(s.grants[id], user);
    var lostBack := map id | id in s.grants :: LostBackIn(s.grants[id], ReversalPosted(s.log, id), user);
    var lost := map id | id in s.grants :: LostIn(s.grants[id], GrantPosted(s.log, id), user);
    var more := map id | id in s.grants :: active[id] + lostBack[id];
    forall id | id in s.grants ensures GrantShares(s, Promo(user))[id] == more[id] - lost[id] {
      assert GrantKeys(s, id);
      PromoGrantShare(s.grants[id], GrantPosted(s.log, id), ReversalPosted(s.log, id), user);
    }
    TotalMinus(GrantShares(s, Promo(user)), more, lost);
    TotalAdd(more, active, lostBack);
    TotalSupport(active, ActiveGrantsOf(s, user));
    TotalSupport(lostBack, LostReversalsOf(s, user));
    TotalSupport(lost, LostGrantsOf(s, user));
  }

  /** Promo credit is the user's active grants, less promo spent on escrows, plus promo refunded from them; and every commit
      that failed after its row was written shifts it by exactly the grant's amount. */
  lemma PromoEquation(s: State, user: string)
    requires Reachable(s)
    ensures Net(s.log, Of(Promo(user))) ==
            Total(ActiveGrantsOf(s, user)) - Total(PromoSpent(s, user)) + Total(PromoRefunded(s, user))
            - Total(LostGrantsOf(s, user)) + Total(LostReversalsOf(s, user))
  {
    ReachableGood(s);
    PromoEscrowPart(s, user);
    PromoGrantPart(s, user);
    TotalZero(OrderShares(s, Promo(user)));
    TotalZero(WithdrawalShares(s, Promo(user)));
    ExplainedAt(s, Promo(user));
  }

  lemma MoveSound(s: State, m: Move)
    requires Good(s) && Legal(s, m)
    ensures Sound(EffectOf(s, m))
  {
    EffectSound(s, m);
  }

  /** The call grants this grant, or reverses it, and only its commit is left to fail. */
  predicate WritesGrant(s: State, u: UseCase, id: string) {
    match u
    case DoGrantCredit(uid, user, amount, reason, grantedBy, key) =>
      && uid == id && user != "" && reason != "" && grantedBy != "" && key != "" && amount > 0 && !GrantTaken(s, id, key)
    case DoReverseCreditGrant(gid, reason, reversedBy) =>
      gid == id && id != "" && reason != "" && reversedBy != "" && id in s.grants && s.grants[id].status == Active
    case _ => false
  }

  lemma LostGrant(s: State, c: Command, id: string)
    requires Good(s) && !c.commits && WritesGrant(s, c.useCase, id) && c.useCase.DoGrantCredit?
    ensures !GrantWhole(Execute(s, c).state, id)
  {
    GrantKeysIn(s, id);
    ExecuteGrant(s, c);
    GrantPosts(s, c.useCase.uid, c.useCase.user, c.useCase.amount);
  }

  lemma LostReversal(s: State, c: Command, id: string)
    requires Good(s) && !c.commits && WritesGrant(s, c.useCase, id) && c.useCase.DoReverseCreditGrant?
    ensures !GrantWhole(Execute(s, c).state, id)
  {
    GrantKeysIn(s, id);
    ExecuteReversal(s, c);
    ReversePosts(s, id);
  }

  /** A grant that stops being whole was written by a call that got as far as its commit. */
  lemma OnlyFailedCommits(s: State, c: Command, m: Move, id: string)
    requires Good(s) && Executes(s, c, m) && GrantWhole(s, id) && !GrantWhole(Apply(s, m), id)
    ensures !c.commits && WritesGrant(s, c.useCase, id)
  {
    MoveSound(s, m);
    WholeKept(s, m, id);
    if !WritesGrant(s, c.useCase, id) {
      RefusedGrant(s, c, id);
    }
  }

  lemma RefusedGrant(s: State, c: Command, id: string)
    requires !WritesGrant(s, c.useCase, id)
    requires (c.useCase.DoGrantCredit? && c.useCase.uid == id) || (c.useCase.DoReverseCreditGrant? && c.useCase.id == id)
    ensures Execute(s, c).state == s
  {
    if c.useCase.DoGrantCredit? {
      ExecuteGrant(s, c);
    } else {
      ExecuteReversal(s, c);
    }
  }

  /** Exactly when a grant loses the journal of its row: when it is granted or reversed and the commit fails. */
  lemma GrantLosesJournalIff(s: State, c: Command, id: string)
    requires Reachable(s) && GrantWhole(s, id)
    ensures !GrantWhole(Execute(s, c).state, id) <==> !c.commits && WritesGrant(s, c.useCase, id)
  {
    ReachableGood(s);
    if !c.commits && WritesGrant(s, c.useCase, id) {
      if c.useCase.DoGrantCredit? {
        LostGrant(s, c, id);
      } else {
        LostReversal(s, c, id);
      }
    }
    if !GrantWhole(Execute(s, c).state, id) {
      var m := ExecuteStep(s, c);
      OnlyFailedCommits(s, c, m, id);
    }
  }

  /** What is lost stays lost. */
  lemma LostStays(s: State, m: Move, id: string)
    requires Legal(s, m) && Sound(EffectOf(s, m)) && GrantKeys(s, id) && !GrantWhole(s, id)
    ensures !GrantWhole(Apply(s, m), id)
  {
    GrantFlags(s, m, id);
    GrantAfter(s, m, id);
  }

  /** No call of the run wrote this grant and then failed to commit. */
  ghost predicate NeverLost(cs: seq<Command>, id: string) {
    forall n :: 0 <= n < |cs| ==> cs[n].commits || !WritesGrant(Run(EMPTY, cs[..n]), cs[n].useCase, id)
  }

  lemma NeverLostLast(cs: seq<Command>, id: string)
    requires cs != []
    ensures var front, c := cs[..|cs| - 1], cs[|cs| - 1];
            NeverLost(cs, id) <==> NeverLost(front, id) && (c.commits || !WritesGrant(Run(EMPTY, front), c.useCase, id))
  {
    var front := cs[..|cs| - 1];
    forall n | 0 <= n < |front| ensures cs[..n] == front[..n] && cs[n] == front[n] {}
  }

  /** After any run a grant has all its journals exactly when none of its commits failed. */
  lemma {:induction false} GrantWholeIff(cs: seq<Command>, id: string)
    ensures GrantWhole(Run(EMPTY, cs), id) <==> NeverLost(cs, id)
  {
    if cs != [] {
      var front, c := cs[..|cs| - 1], cs[|cs| - 1];
      var s := Run(EMPTY, front);
      GrantWholeIff(front, id);
      NeverLostLast(cs, id);
      assert Reachable(s);
      if GrantWhole(s, id) {
        GrantLosesJournalIff(s, c, id);
      } else {
        ReachableGood(s);
        GrantKeysIn(s, id);
        var m := ExecuteStep(s, c);
        MoveSound(s, m);
        LostStays(s, m, id);
      }
    }
  }

  lemma NoneLost(s: State, user: string)
    requires forall id :: GrantWhole(s, id)
    ensures Total(LostGrantsOf(s, user)) == 0 && Total(LostReversalsOf(s, user)) == 0
  {
    forall id | id in s.grants ensures id !in LostGrantsOf(s, user) && id !in LostReversalsOf(s, user) {
      assert GrantWhole(s, id);
    }
    TotalZero(LostGrantsOf(s, user));
    TotalZero(LostReversalsOf(s, user));
  }

  /** Then promo credit is active grants less promo spent plus promo refunded, and nothing else. */
  lemma CommittedPromoEquation(cs: seq<Command>, user: string)
    requires forall c :: c in cs ==> c.commits
    ensures var s := Run(EMPTY, cs);
            Net(s.log, Of(Promo(user))) ==
            Total(ActiveGrantsOf(s, user)) - Total(PromoSpent(s, user)) + Total(PromoRefunded(s, user))
  {
    var s := Run(EMPTY, cs);
    assert Reachable(s);
    PromoEquation(s, user);
    forall id ensures GrantWhole(s, id) {
      GrantWholeIff(cs, id);
    }
    NoneLost(s, user);
  }

  lemma TotalNegated(m: map<string, int>, n: map<string, int>)
    requires n.Keys <= m.Keys
    requires forall k :: k in m ==> m[k] == if k in n then -n[k] else 0
    ensures Total(m) == -Total(n)
  {
    var zero := map k | k in m :: 0;
    var full := map k | k in m :: if k in n then n[k] else 0;
    TotalMinus(m, zero, full);
    TotalZero(zero);
    TotalSupport(full, n);
  }

  lemma PspOrderPart(s: State)
    requires OrdersOk(s) && Serial(s)
    ensures Total(OrderShares(s, PspClearing)) == -Total(ConfirmedTopups(s))
  {
    forall id | id in s.orders ensures s.orders[id].status == Confirmed <==> id in s.verifyEvents {
      assert OrderOk(s, id, s.orders[id]);
    }
    TotalNegated(OrderShares(s, PspClearing), ConfirmedTopups(s));
  }

  lemma PspEscrowPart(s: State)
    ensures Total(EscrowShares(s, PspClearing)) == -Total(PspFunded(s))
  {
    TotalNegated(EscrowShares(s, PspClearing), PspFunded(s));
  }

  /** The net debit of PSP clearing is the confirmed topups plus the escrows the provider funded. */
  lemma PspEquation(s: State)
    requires Reachable(s)
    ensures -Net(s.log, Of(PspClearing)) == Total(ConfirmedTopups(s)) + Total(PspFunded(s))
  {
    ReachableGood(s);
    PspOrderPart(s);
    PspEscrowPart(s);
    TotalZero(WithdrawalShares(s, PspClearing));
    TotalZero(GrantShares(s, PspClearing));
    ExplainedAt(s, PspClearing);
  }

  /** Payout clearing holds exactly the withdrawals that were not failed or rejected. */
  lemma PayoutEquation(s: State)
    requires Reachable(s)
    ensures Net(s.log, Of(PayoutClearing)) == Total(OpenWithdrawals(s))
  {
    ReachableGood(s);
    TotalSupport(WithdrawalShares(s, PayoutClearing), OpenWithdrawals(s));
    TotalZero(OrderShares(s, PayoutClearing));
    TotalZero(EscrowShares(s, PayoutClearing));
    TotalZero(GrantShares(s, PayoutClearing));
    ExplainedAt(s, PayoutClearing);
  }

  /** A promo balance is never further below zero than the sum of the user's reversed grants. */
  lemma PromoNeverBelowReversals(s: State, user: string)
    requires Reachable(s)
    ensures Net(s.log, Of(Promo(user))) >= -Total(ReversedOf(s, user))
  {
    ReachableGood(s);
    assert FloorHolds(s, user);
  }
}
