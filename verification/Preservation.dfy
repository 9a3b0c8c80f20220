/** Every legal move keeps the invariant. */
module Preservation {
  import opened Results
  import opened Int64
  import opened Accounts
  import opened Refs
  import opened Ledger
  import opened Postings
  import opened Domain
  import opened Machine
  import opened Story
  import opened Totals
  import opened Effects
  import opened Moves

  lemma EscrowPositive(s: State, ship: string)
    requires EscrowsOk(s) && ship in s.escrows
    ensures s.escrows[ship].amount > 0
  {
    assert EscrowTells(s, ship);
  }

  lemma OrderPositive(s: State, id: string)
    requires OrdersOk(s) && id in s.orders
    ensures s.orders[id].amount > 0
  {}

  lemma FundingSound(s: State, m: Move)
    requires m.Pay? || m.Fund? || m.ConfirmShipment?
    requires Legal(s, m) && EscrowsOk(s)
    ensures Sound(EffectOf(s, m))
  {
    match m
    case Pay(ship, _, _) => EscrowPositive(s, ship);
    case Fund(ship, _) => EscrowPositive(s, ship);
    case ConfirmShipment(id) => EscrowPositive(s, s.orders[id].shipmentId);
  }

  lemma EffectSound(s: State, m: Move)
    requires Legal(s, m) && EscrowsOk(s) && OrdersOk(s) && AmountsOk(s)
    ensures Sound(EffectOf(s, m))
  {
    if m.Pay? || m.Fund? || m.ConfirmShipment? {
      FundingSound(s, m);
    } else if m.ConfirmTopup? {
      OrderPositive(s, m.id);
    }
  }

  // ---- the log ---------------------------------------------------------------------------------

  lemma TakenFresh(s: State, m: Move)
    requires Legal(s, m)
    ensures Taken(EffectOf(s, m)) !! Keys(s.log)
  {}

  lemma LogKept(log: Log, f: Effect)
    requires Sound(f) && LogOk(log) && Taken(f) !! Keys(log)
    ensures LogOk(log + Journals(f))
  {
    EffectUnique(log, f);
    var all := log + Journals(f);
    forall i | 0 <= i < |all| ensures Balanced(all[i].lines) {
      if i >= |log| {
        EffectBalanced(f, i - |log|);
      }
    }
  }

  // ---- solvency --------------------------------------------------------------------------------

  /** The accounts an effect takes money from hold enough of it. */
  ghost predicate Covered(log: Log, f: Effect) {
    match f
    case NoEffect => true
    case PayIn(_, payer, _, wallet) => wallet <= Net(log, Of(Wallet(payer)))
    case FundIn(_, _, _, _) => true
    case PayOut(ship, _, balance, _) => balance <= Net(log, Of(Escrow(ship)))
    case PayBack(ship, _, promo, wallet) => promo + wallet <= Net(log, Of(Escrow(ship)))
    case Plain(_, _, debited, _, amount) => Guarded(debited) ==> amount <= Net(log, Of(debited))
  }

  lemma EffectCovered(s: State, m: Move)
    requires Legal(s, m)
    ensures Covered(s.log, EffectOf(s, m))
  {}

  lemma SolventNow(log: Log, a: Account)
    requires Solvent(log) && Guarded(a)
    ensures Net(log, Of(a)) >= 0
  {}

  lemma SolventNext(log: Log, j: Journal)
    requires Solvent(log)
    requires forall a :: Guarded(a) ==> Net(log + [j], Of(a)) >= 0
    ensures Solvent(log + [j])
  {}

  lemma SolventTransfer(log: Log, rt: RefType, ref: string, debited: Account, credited: Account, amount: int)
    requires Solvent(log) && amount > 0 && debited != credited
    requires Guarded(debited) ==> amount <= Net(log, Of(debited))
    ensures Solvent(log + [Transfer(rt, ref, debited, credited, amount)])
  {
    var j := Transfer(rt, ref, debited, credited, amount);
    forall a | Guarded(a) ensures Net(log + [j], Of(a)) >= 0 {
      SolventNow(log, a);
      TransferNet(log, rt, ref, debited, credited, amount, a);
    }
    SolventNext(log, j);
  }

  lemma SolventOne(log: Log, f: Effect)
    requires Sound(f) && Solvent(log) && Covered(log, f) && (f.PayIn? || f.PayOut?)
    ensures Solvent(log + Journals(f))
  {
    CoveredAfter(log, f);
    SolventNext(log, Journals(f)[0]);
  }

  lemma CoveredAfter(log: Log, f: Effect)
    requires Sound(f) && Solvent(log) && Covered(log, f)
    ensures forall a :: Guarded(a) ==> Net(log + Journals(f), Of(a)) >= 0
  {
    forall a | Guarded(a) ensures Net(log + Journals(f), Of(a)) >= 0 {
      SolventNow(log, a);
      EffectNet(log, f, a);
    }
  }

  lemma SolventFunding(log: Log, ship: string, order: string, payer: string, amount: int)
    requires amount > 0 && Solvent(log)
    ensures Solvent(log + FundingJournals(ship, order, payer, amount))
  {
    var p, q := PspLeg(ship, order, payer, amount), EscrowLeg(ship, order, payer, amount);
    SolventTransfer(log, p.refType, p.refId, PspClearing, Wallet(payer), amount);
    SolventNow(log, Wallet(payer));
    TransferNet(log, p.refType, p.refId, PspClearing, Wallet(payer), amount, Wallet(payer));
    SolventTransfer(log + [p], q.refType, q.refId, Wallet(payer), Escrow(ship), amount);
    assert log + [p, q] == (log + [p]) + [q];
  }

  lemma SolventPayBack(log: Log, ship: string, payer: string, promo: int, wallet: int)
    requires Sound(PayBack(ship, payer, promo, wallet)) && Solvent(log)
    requires promo + wallet <= Net(log, Of(Escrow(ship)))
    ensures Solvent(log + RefundJournals(payer, ship, promo, wallet))
  {
    var mid := RefundLogs(log, payer, ship, promo, wallet);
    if promo > 0 {
      SolventTransfer(log, EscrowRefundPromoCredit, RefundPromoRef(ship, promo), Escrow(ship), Promo(payer), promo);
      TransferNet(log, EscrowRefundPromoCredit, RefundPromoRef(ship, promo), Escrow(ship), Promo(payer), promo, Escrow(ship));
    }
    if wallet > 0 {
      SolventTransfer(mid, EscrowRefundWallet, RefundWalletRef(ship, wallet), Escrow(ship), Wallet(payer), wallet);
    }
  }

  /** No prefix of the log overdraws a wallet or an escrow, the point between two legs included. */
  lemma SolventKept(log: Log, f: Effect)
    requires Sound(f) && Solvent(log) && Covered(log, f)
    ensures Solvent(log + Journals(f))
  {
    match f
    case NoEffect => assert log + [] == log;
    case FundIn(ship, order, payer, amount) => SolventFunding(log, ship, order, payer, amount);
    case PayBack(ship, payer, promo, wallet) => SolventPayBack(log, ship, payer, promo, wallet);
    case Plain(rt, ref, debited, credited, amount) => SolventTransfer(log, rt, ref, debited, credited, amount);
    case _ => SolventOne(log, f);
  }

  // ---- escrows ---------------------------------------------------------------------------------

  lemma OneStoryContinues(s: State, m: Move, t: Story, x: string)
    requires Legal(s, m) && EscrowOf(s, m) != Some(x)
    ensures Chapter(t, EffectOf(s, m), x) == t
  {}

  lemma PaidOk(e: EscrowRow, t: Story, promo: int, wallet: int)
    requires EscrowOk(e, t) && e.status == Created && promo >= 0 && wallet >= 0 && promo + wallet == e.amount
    ensures EscrowOk(PaidWith(e, promo, wallet), t.PaidIn(promo, wallet))
  {}

  lemma FundedOk(e: EscrowRow, t: Story, order: string)
    requires EscrowOk(e, t) && e.status == Created && order != ""
    ensures EscrowOk(FundedBy(e, order), t.PaidIn(0, e.amount))
  {}

  lemma ReleasedOk(e: EscrowRow, t: Story, fee: int)
    requires EscrowOk(e, t) && e.status.CanRelease() && 0 < fee < t.Held()
    ensures EscrowOk(e.(status := Released), t.PaidOut(fee, t.Held() - fee))
  {}

  lemma ReturnedOk(e: EscrowRow, t: Story, amount: int)
    requires EscrowOk(e, t) && e.status.CanRefund() && 0 < amount <= t.Held()
    ensures EscrowOk(PaidBack(e, t.Held(), amount), t.PaidBack(Back(e, amount).0, Back(e, amount).1))
  {}

  lemma ProgressOk(e: EscrowRow, t: Story, next: EscrowStatus)
    requires EscrowOk(e, t)
    requires (e.status.CanMarkDelivered() && next == DisputeWindow) || (e.status.CanFreeze() && next == Frozen)
    ensures EscrowOk(e.(status := next), t)
  {}

  lemma ReturnOk(s: State, ship: string, amount: int)
    requires Legal(s, Return(ship, amount)) && EscrowTells(s, ship)
    ensures EscrowOk(EscrowAfter(s, Return(ship, amount)), Chapter(StoryOf(s.log, ship), EffectOf(s, Return(ship, amount)), ship))
  {
    ReturnedOk(s.escrows[ship], StoryOf(s.log, ship), amount);
  }

  lemma ReleaseOk(s: State, ship: string, fee: int)
    requires Legal(s, Release(ship, fee)) && EscrowTells(s, ship)
    ensures EscrowOk(EscrowAfter(s, Release(ship, fee)), Chapter(StoryOf(s.log, ship), EffectOf(s, Release(ship, fee)), ship))
  {
    ReleasedOk(s.escrows[ship], StoryOf(s.log, ship), fee);
  }

  lemma OpenOk(s: State, ship: string, carrier: string, payer: string, amount: int)
    requires ship !in s.escrows && 0 < amount <= MAX && EscrowTells(s, ship)
    ensures EscrowOk(EscrowRow(carrier, payer, amount, Created, "", NoSource, 0), StoryOf(s.log, ship))
  {}

  /** The row and story of the escrow a move writes stay consistent. */
  lemma WrittenEscrowOk(s: State, m: Move, ship: string)
    requires Legal(s, m) && EscrowTells(s, ship) && EscrowOf(s, m) == Some(ship)
    ensures EscrowOk(EscrowAfter(s, m), Chapter(StoryOf(s.log, ship), EffectOf(s, m), ship))
  {
    var t := StoryOf(s.log, ship);
    match m
    case Open(_, carrier, payer, amount) => OpenOk(s, ship, carrier, payer, amount);
    case Pay(_, promo, wallet) => PaidOk(s.escrows[ship], t, promo, wallet);
    case Fund(_, order) => FundedOk(s.escrows[ship], t, order);
    case ConfirmShipment(id) => FundedOk(s.escrows[ship], t, id);
    case Progress(_, next) => ProgressOk(s.escrows[ship], t, next);
    case Release(_, fee) => ReleaseOk(s, ship, fee);
    case Return(_, amount) => ReturnOk(s, ship, amount);
  }

  lemma OtherEscrowKept(s: State, m: Move, ship: string)
    requires Legal(s, m) && EscrowTells(s, ship) && Sound(EffectOf(s, m)) && EscrowOf(s, m) != Some(ship)
    ensures EscrowTells(Apply(s, m), ship)
  {
    EffectTells(s.log, EffectOf(s, m), ship);
    OneStoryContinues(s, m, StoryOf(s.log, ship), ship);
  }

  lemma EscrowKept(s: State, m: Move, ship: string)
    requires Legal(s, m) && EscrowTells(s, ship) && Sound(EffectOf(s, m))
    ensures EscrowTells(Apply(s, m), ship)
  {
    if EscrowOf(s, m) == Some(ship) {
      EffectTells(s.log, EffectOf(s, m), ship);
      WrittenEscrowOk(s, m, ship);
    } else {
      OtherEscrowKept(s, m, ship);
    }
  }

  lemma EscrowsKept(s: State, m: Move)
    requires Legal(s, m) && EscrowsOk(s) && Sound(EffectOf(s, m))
    ensures EscrowsOk(Apply(s, m))
  {
    forall ship ensures EscrowTells(Apply(s, m), ship) {
      EscrowKept(s, m, ship);
    }
  }

  // ---- the tables explain every balance --------------------------------------------------------

  /** What the escrow table contributes to a change of balance. */
  function EscrowPart(s: State, m: Move, a: Account): int
    requires Legal(s, m)
  {
    match EscrowOf(s, m)
    case None => 0
    case Some(ship) =>
      EscrowShare(ship, EscrowAfter(s, m), Chapter(StoryOf(s.log, ship), EffectOf(s, m), ship), a)
      - (if ship in s.escrows then EscrowShare(ship, s.escrows[ship], StoryOf(s.log, ship), a) else 0)
  }

  lemma EscrowTotalAfter(s: State, m: Move, a: Account)
    requires Legal(s, m) && Sound(EffectOf(s, m))
    ensures Total(EscrowShares(Apply(s, m), a)) == Total(EscrowShares(s, a)) + EscrowPart(s, m, a)
  {
    var t := Apply(s, m);
    forall x ensures StoryOf(t.log, x) == Chapter(StoryOf(s.log, x), EffectOf(s, m), x) {
      EffectStory(s.log, EffectOf(s, m), x);
    }
    forall x | EscrowOf(s, m) != Some(x) ensures StoryOf(t.log, x) == StoryOf(s.log, x) {
      OneStoryContinues(s, m, StoryOf(s.log, x), x);
    }
    match EscrowOf(s, m)
    case None => EscrowTotalStays(s, t, a);
    case Some(ship) => EscrowTotalMoves(s, t, ship, a);
  }

  function OrderPart(s: State, m: Move, a: Account): int
    requires Legal(s, m)
  {
    match m
    case ConfirmTopup(id) => OrderShare(s.orders[id], true, a)
    case _ => 0
  }

  lemma OrderTotalAfter(s: State, m: Move, a: Account)
    requires Legal(s, m) && s.verifyEvents <= s.orders.Keys
    ensures Total(OrderShares(Apply(s, m), a)) == Total(OrderShares(s, a)) + OrderPart(s, m, a)
  {
    var t := Apply(s, m);
    match m
    case AddOrder(id, row) => OrderTotalMoves(s, t, id, row, a);
    case ConfirmTopup(id) => OrderTotalMoves(s, t, id, t.orders[id], a);
    case ConfirmShipment(id) => OrderTotalMoves(s, t, id, t.orders[id], a);
    case DropOrder(id) => OrderTotalMoves(s, t, id, t.orders[id], a);
    case _ => SameOrders(s, t, a);
  }

  lemma SameOrders(s: State, t: State, a: Account)
    requires t.orders == s.orders && t.verifyEvents == s.verifyEvents
    ensures OrderShares(t, a) == OrderShares(s, a)
  {}

  function WithdrawalPart(s: State, m: Move, a: Account): int
    requires Legal(s, m)
  {
    match m
    case Reserve(_, user, amount) => WithdrawalShare(WithdrawalRow(user, amount, WPending), a)
    case GiveBack(id, _) => -WithdrawalShare(s.withdrawals[id], a)
    case _ => 0
  }

  lemma WithdrawalTotalAfter(s: State, m: Move, a: Account)
    requires Legal(s, m)
    ensures Total(WithdrawalShares(Apply(s, m), a)) == Total(WithdrawalShares(s, a)) + WithdrawalPart(s, m, a)
  {
    var t := Apply(s, m);
    match m
    case Reserve(id, _, _) => WithdrawalTotalMoves(s, t, id, t.withdrawals[id], a);
    case Advance(id, _) => WithdrawalTotalMoves(s, t, id, t.withdrawals[id], a);
    case GiveBack(id, _) => WithdrawalTotalMoves(s, t, id, t.withdrawals[id], a);
    case _ => SameWithdrawals(s, t, a);
  }

  lemma SameWithdrawals(s: State, t: State, a: Account)
    requires t.withdrawals == s.withdrawals
    ensures WithdrawalShares(t, a) == WithdrawalShares(s, a)
  {}

  lemma GrantKeysTaken(s: State, m: Move, id: string)
    requires Legal(s, m)
    ensures (PromoCreditGrant, id) in Taken(EffectOf(s, m)) <==> m.Grant? && m.id == id
    ensures (PromoCreditReverse, ReverseRef(id)) in Taken(EffectOf(s, m)) <==> m == Reverse(id)
  {
    if m.Reverse? {
      OneIdRefsInjective(m.id, id);
    }
  }

  /** When a grant's journals come into the log. */
  lemma GrantFlags(s: State, m: Move, id: string)
    requires Legal(s, m) && Sound(EffectOf(s, m))
    ensures GrantPosted(Apply(s, m).log, id) <==> GrantPosted(s.log, id) || (m.Grant? && m.id == id)
    ensures ReversalPosted(Apply(s, m).log, id) <==> ReversalPosted(s.log, id) || m == Reverse(id)
  {
    EffectKeys(s.log, EffectOf(s, m));
    GrantKeysTaken(s, m, id);
  }

  function GrantPart(s: State, m: Move, a: Account): int
    requires Legal(s, m)
  {
    match m
    case Grant(_, user, amount, key) => GrantShare(GrantRow(user, amount, Active, key), true, false, a)
    case Reverse(id) => -GrantShare(s.grants[id], true, false, a)
    case _ => 0
  }

  /** The grant whose row a move writes. */
  function GrantOf(m: Move): Option<string> {
    match m
    case Grant(id, _, _, _) => Some(id)
    case Reverse(id) => Some(id)
    case LoseGrant(id, _, _, _) => Some(id)
    case LoseReverse(id) => Some(id)
    case _ => None
  }

  lemma GrantsElsewhere(s: State, m: Move, id: string)
    requires Legal(s, m) && Sound(EffectOf(s, m)) && GrantOf(m) == Some(id)
    ensures GrantsDifferAt(s, Apply(s, m), id)
  {
    forall x | x in s.grants && x != id
      ensures GrantPosted(Apply(s, m).log, x) == GrantPosted(s.log, x) && ReversalPosted(Apply(s, m).log, x) == ReversalPosted(s.log, x)
    {
      GrantFlags(s, m, x);
    }
  }

  lemma GrantsUntouched(s: State, m: Move, a: Account)
    requires Legal(s, m) && Sound(EffectOf(s, m)) && GrantOf(m) == None
    ensures GrantShares(Apply(s, m), a) == GrantShares(s, a)
  {
    forall x | x in s.grants
      ensures GrantPosted(Apply(s, m).log, x) == GrantPosted(s.log, x) && ReversalPosted(Apply(s, m).log, x) == ReversalPosted(s.log, x)
    {
      GrantFlags(s, m, x);
    }
  }

  lemma GrantTotalAfter(s: State, m: Move, a: Account)
    requires Legal(s, m) && Sound(EffectOf(s, m)) && (GrantOf(m).Some? ==> GrantKeys(s, GrantOf(m).value))
    ensures Total(GrantShares(Apply(s, m), a)) == Total(GrantShares(s, a)) + GrantPart(s, m, a)
  {
    match GrantOf(m)
    case None => GrantsUntouched(s, m, a);
    case Some(id) =>
      GrantsElsewhere(s, m, id);
      GrantFlags(s, m, id);
      GrantTotalMoves(s, Apply(s, m), id, a);
  }

  lemma PaySplits(ship: string, e: EscrowRow, t: Story, promo: int, wallet: int, a: Account)
    requires EscrowOk(e, t) && e.status == Created
    ensures EscrowShare(ship, PaidWith(e, promo, wallet), t.PaidIn(promo, wallet), a) - EscrowShare(ship, e, t, a) ==
            Delta(PayIn(ship, e.payer, promo, wallet), a)
  {}

  lemma FundSplits(ship: string, e: EscrowRow, t: Story, order: string, a: Account)
    requires EscrowOk(e, t) && e.status == Created
    ensures EscrowShare(ship, FundedBy(e, order), t.PaidIn(0, e.amount), a) - EscrowShare(ship, e, t, a) ==
            Delta(FundIn(ship, order, e.payer, e.amount), a)
  {}

  lemma ReleaseSplits(ship: string, e: EscrowRow, t: Story, fee: int, a: Account)
    ensures EscrowShare(ship, e.(status := Released), t.PaidOut(fee, t.Held() - fee), a) - EscrowShare(ship, e, t, a) ==
            Delta(PayOut(ship, e.carrier, t.Held(), fee), a)
  {}

  lemma ReturnSplits(ship: string, e: EscrowRow, t: Story, amount: int, a: Account)
    ensures EscrowShare(ship, PaidBack(e, t.Held(), amount), t.PaidBack(Back(e, amount).0, Back(e, amount).1), a)
            - EscrowShare(ship, e, t, a) ==
            Delta(PayBack(ship, e.payer, Back(e, amount).0, Back(e, amount).1), a)
  {}

  lemma OpenSplits(ship: string, carrier: string, payer: string, amount: int, t: Story, a: Account)
    requires t.Blank()
    ensures EscrowShare(ship, EscrowRow(carrier, payer, amount, Created, "", NoSource, 0), t, a) == 0
  {}

  lemma ProgressSplits(ship: string, e: EscrowRow, next: EscrowStatus, t: Story, a: Account)
    ensures EscrowShare(ship, e.(status := next), t, a) == EscrowShare(ship, e, t, a)
  {}

  lemma InSplits(s: State, m: Move, ship: string, a: Account)
    requires m.Pay? || m.Fund? || m.ConfirmShipment?
    requires Legal(s, m) && EscrowOf(s, m) == Some(ship) && EscrowTells(s, ship)
    ensures Delta(EffectOf(s, m), a) == EscrowPart(s, m, a)
  {
    match m
    case Pay(_, promo, wallet) => PaySplits(ship, s.escrows[ship], StoryOf(s.log, ship), promo, wallet, a);
    case Fund(_, order) => FundSplits(ship, s.escrows[ship], StoryOf(s.log, ship), order, a);
    case ConfirmShipment(id) => FundSplits(ship, s.escrows[ship], StoryOf(s.log, ship), id, a);
  }

  lemma OutSplits(s: State, m: Move, ship: string, a: Account)
    requires m.Release? || m.Return?
    requires Legal(s, m) && EscrowOf(s, m) == Some(ship) && EscrowTells(s, ship)
    ensures Delta(EffectOf(s, m), a) == EscrowPart(s, m, a)
  {
    match m
    case Release(_, fee) => ReleaseSplits(ship, s.escrows[ship], StoryOf(s.log, ship), fee, a);
    case Return(_, amount) => ReturnSplits(ship, s.escrows[ship], StoryOf(s.log, ship), amount, a);
  }

  lemma EscrowSplits(s: State, m: Move, ship: string, a: Account)
    requires Legal(s, m) && EscrowOf(s, m) == Some(ship) && EscrowTells(s, ship)
    ensures Delta(EffectOf(s, m), a) == EscrowPart(s, m, a)
  {
    match m
    case Open(_, carrier, payer, amount) => OpenSplits(ship, carrier, payer, amount, StoryOf(s.log, ship), a);
    case Progress(_, next) => ProgressSplits(ship, s.escrows[ship], next, StoryOf(s.log, ship), a);
    case Release(_, _) => OutSplits(s, m, ship, a);
    case Return(_, _) => OutSplits(s, m, ship, a);
    case _ => InSplits(s, m, ship, a);
  }

  /** The change of a balance is the sum of the four tables' changes. */
  lemma DeltaSplits(s: State, m: Move, a: Account)
    requires Legal(s, m) && (EscrowOf(s, m).Some? ==> EscrowTells(s, EscrowOf(s, m).value))
    ensures Delta(EffectOf(s, m), a) == EscrowPart(s, m, a) + OrderPart(s, m, a) + WithdrawalPart(s, m, a) + GrantPart(s, m, a)
  {
    if EscrowOf(s, m).Some? {
      EscrowSplits(s, m, EscrowOf(s, m).value, a);
    }
  }

  lemma ExplainedAfter(s: State, m: Move, a: Account)
    requires Legal(s, m) && Sound(EffectOf(s, m)) && EscrowsOk(s) && OrdersOk(s)
    requires GrantOf(m).Some? ==> GrantKeys(s, GrantOf(m).value)
    requires Net(s.log, Of(a)) == Explained(s, a)
    ensures Net(Apply(s, m).log, Of(a)) == Explained(Apply(s, m), a)
  {
    EffectNet(s.log, EffectOf(s, m), a);
    EscrowTotalAfter(s, m, a);
    OrderTotalAfter(s, m, a);
    WithdrawalTotalAfter(s, m, a);
    GrantTotalAfter(s, m, a);
    DeltaSplits(s, m, a);
  }

  lemma AgreesKept(s: State, m: Move)
    requires Legal(s, m) && Sound(EffectOf(s, m)) && EscrowsOk(s) && OrdersOk(s) && KeysOk(s) && Agrees(s)
    ensures Agrees(Apply(s, m))
  {
    if GrantOf(m).Some? {
      assert GrantKeys(s, GrantOf(m).value);
    }
    forall a ensures Net(Apply(s, m).log, Of(a)) == Explained(Apply(s, m), a) {
      ExplainedAfter(s, m, a);
    }
  }
}
