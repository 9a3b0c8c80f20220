/** The legal moves of the money machine: what a use case may do to the state, without its error paths,
    and the invariant every move keeps. */
module Moves {
  import opened Results
  import opened Int64
  import opened Accounts
  import opened Refs
  import opened Ledger
  import opened Postings
  import opened Domain
  import opened Machine
  import opened Story
  import opened Totals
  import opened Effects

  datatype Move =
    | Stay
    | Open(ship: string, carrier: string, payer: string, amount: int)
    | Pay(ship: string, promo: int, wallet: int)
    | Fund(ship: string, order: string)
    | Progress(ship: string, next: EscrowStatus)
    | Release(ship: string, fee: int)
    | Return(ship: string, amount: int)
    | AddOrder(id: string, row: OrderRow)
    | ConfirmTopup(id: string)
    | ConfirmShipment(id: string)
    | DropOrder(id: string)
    | Reserve(id: string, user: string, amount: int)
    | Advance(id: string, to: WithdrawalStatus)
    | GiveBack(id: string, to: WithdrawalStatus)
    | Grant(id: string, user: string, amount: int, key: string)
    | Reverse(id: string)
    | LoseGrant(id: string, user: string, amount: int, key: string)
    | LoseReverse(id: string)

  /** The two amounts a refund of an escrow row gives back. */
  function Back(e: EscrowRow, refund: int): (int, int) {
    RefundAllocation(refund, e.promoCreditFunded)
  }

  predicate Fresh(log: Log, j: Journal) {
    j.refId != "" && (j.refType, j.refId) !in Keys(log)
  }

  predicate CanFundNow(s: State, ship: string, order: string) {
    && ship in s.escrows && s.escrows[ship].status == Created && order != ""
    && Fresh(s.log, PspLeg(ship, order, s.escrows[ship].payer, s.escrows[ship].amount))
    && Fresh(s.log, EscrowLeg(ship, order, s.escrows[ship].payer, s.escrows[ship].amount))
  }

  predicate Legal(s: State, m: Move) {
    match m
    case Stay => true
    case Open(ship, carrier, payer, amount) => ship !in s.escrows && 0 < amount <= MAX
    case Pay(ship, promo, wallet) =>
      && ship in s.escrows && s.escrows[ship].status == Created
      && 0 <= promo <= Net(s.log, Of(Promo(s.escrows[ship].payer)))
      && 0 <= wallet <= Net(s.log, Of(Wallet(s.escrows[ship].payer)))
      && promo + wallet == s.escrows[ship].amount
      && Fresh(s.log, PayJournal(s.escrows[ship].payer, ship, Split(promo, wallet), promo + wallet))
    case Fund(ship, order) => CanFundNow(s, ship, order)
    case Progress(ship, next) =>
      && ship in s.escrows
      && ((s.escrows[ship].status.CanMarkDelivered() && next == DisputeWindow)
          || (s.escrows[ship].status.CanFreeze() && next == Frozen))
    case Release(ship, fee) =>
      && ship in s.escrows && s.escrows[ship].status.CanRelease()
      && 0 < fee < Net(s.log, Of(Escrow(ship))) <= MAX
      && Fresh(s.log, ReleaseJournal(ship, s.escrows[ship].carrier, Net(s.log, Of(Escrow(ship))), fee, Net(s.log, Of(Escrow(ship))) - fee))
    case Return(ship, amount) =>
      && ship in s.escrows && s.escrows[ship].status.CanRefund()
      && 0 < amount <= Net(s.log, Of(Escrow(ship))) <= MAX
      && (var (p, w) := Back(s.escrows[ship], amount);
          && (p > 0 ==> (EscrowRefundPromoCredit, RefundPromoRef(ship, p)) !in Keys(s.log))
          && (w > 0 ==> (EscrowRefundWallet, RefundWalletRef(ship, w)) !in Keys(s.log)))
    case AddOrder(id, row) =>
      && id !in s.orders && row.amount > 0 && row.status in {Pending, OrderFailed}
      && (row.purpose == Shipment ==>
            row.shipmentId in s.escrows && s.escrows[row.shipmentId].payer == row.payer
            && s.escrows[row.shipmentId].amount == row.amount)
    case ConfirmTopup(id) =>
      && id in s.orders && id !in s.verifyEvents && s.orders[id].purpose == TopUp
      && Fresh(s.log, TopupJournal(id, s.orders[id].payer, s.orders[id].amount))
    case ConfirmShipment(id) =>
      && id in s.orders && id !in s.verifyEvents && s.orders[id].purpose == Shipment
      && CanFundNow(s, s.orders[id].shipmentId, id)
    case DropOrder(id) => id in s.orders
    case Reserve(id, user, amount) =>
      && id !in s.withdrawals && 0 < amount <= Net(s.log, Of(Wallet(user)))
      && Fresh(s.log, ReserveJournal(id, user, amount))
    case Advance(id, to) =>
      id in s.withdrawals && CanAdvance(s.withdrawals[id].status, to)
    case GiveBack(id, to) =>
      && id in s.withdrawals && CanReturn(s.withdrawals[id].status, to)
      && Fresh(s.log, Reversal(id, s.withdrawals[id], to))
    case Grant(id, user, amount, key) =>
      !GrantTaken(s, id, key) && amount > 0 && Fresh(s.log, GrantJournal(id, user, amount))
    case Reverse(id) =>
      && id in s.grants && s.grants[id].status == Active
      && Fresh(s.log, ReverseJournal(id, s.grants[id].user, s.grants[id].amount))
    case LoseGrant(id, user, amount, key) => !GrantTaken(s, id, key) && amount > 0
    case LoseReverse(id) => id in s.grants && s.grants[id].status == Active
  }

  /** The steps of a withdrawal that move no money, and those that give the reserve back. */
  predicate CanAdvance(from: WithdrawalStatus, to: WithdrawalStatus) {
    match from
    case WPending => to == Approved || to == Completed
    case Approved => to == SentToBank
    case SentToBank => to == Settled
    case _ => false
  }

  predicate CanReturn(from: WithdrawalStatus, to: WithdrawalStatus) {
    match from
    case WPending => to == Rejected
    case Approved => to == WFailed
    case SentToBank => to == WFailed
    case _ => false
  }

  function Reversal(id: string, w: WithdrawalRow, to: WithdrawalStatus): Journal {
    if to == WFailed then FailReversal(id, w.user, w.amount) else RejectReversal(id, w.user, w.amount)
  }

  /** The money a move transfers, with everything looked up. */
  function EffectOf(s: State, m: Move): Effect
    requires Legal(s, m)
  {
    match m
    case Pay(ship, promo, wallet) => PayIn(ship, s.escrows[ship].payer, promo, wallet)
    case Fund(ship, order) => FundIn(ship, order, s.escrows[ship].payer, s.escrows[ship].amount)
    case ConfirmShipment(id) =>
      var ship := s.orders[id].shipmentId;
      FundIn(ship, id, s.escrows[ship].payer, s.escrows[ship].amount)
    case Release(ship, fee) => PayOut(ship, s.escrows[ship].carrier, Net(s.log, Of(Escrow(ship))), fee)
    case Return(ship, amount) =>
      var (p, w) := Back(s.escrows[ship], amount);
      PayBack(ship, s.escrows[ship].payer, p, w)
    case ConfirmTopup(id) =>
      Plain(WalletTopup, TopupRef(id), PspClearing, Wallet(s.orders[id].payer), s.orders[id].amount)
    case Reserve(id, user, amount) => Plain(WithdrawalReserve, ReserveRef(id), Wallet(user), PayoutClearing, amount)
    case GiveBack(id, to) =>
      Plain(WithdrawalRejectReversal, if to == WFailed then FailRef(id) else RejectRef(id),
            PayoutClearing, Wallet(s.withdrawals[id].user), s.withdrawals[id].amount)
    case Grant(id, user, amount, key) => Plain(PromoCreditGrant, id, PromoExpense, Promo(user), amount)
    case Reverse(id) => Plain(PromoCreditReverse, ReverseRef(id), Promo(s.grants[id].user), PromoExpense, s.grants[id].amount)
    case _ => NoEffect
  }

  function FundedBy(e: EscrowRow, order: string): EscrowRow {
    e.(status := Funded, paymentOrderId := order, source := FromPsp)
  }

  function PaidWith(e: EscrowRow, promo: int, wallet: int): EscrowRow {
    e.(status := Funded, source := FundingSourceForSplit(Split(promo, wallet)), promoCreditFunded := promo)
  }

  function PaidBack(e: EscrowRow, balance: int, amount: int): EscrowRow {
    e.(promoCreditFunded := e.promoCreditFunded - Back(e, amount).0,
       status := if amount == balance then Refunded else PartiallyRefunded)
  }

  /** The shipment whose escrow row a move writes. */
  function EscrowOf(s: State, m: Move): Option<string>
    requires Legal(s, m)
  {
    match m
    case Open(ship, _, _, _) => Some(ship)
    case Pay(ship, _, _) => Some(ship)
    case Fund(ship, _) => Some(ship)
    case Progress(ship, _) => Some(ship)
    case Release(ship, _) => Some(ship)
    case Return(ship, _) => Some(ship)
    case ConfirmShipment(id) => Some(s.orders[id].shipmentId)
    case _ => None
  }

  function EscrowAfter(s: State, m: Move): EscrowRow
    requires Legal(s, m) && EscrowOf(s, m).Some?
  {
    match m
    case Open(ship, carrier, payer, amount) => EscrowRow(carrier, payer, amount, Created, "", NoSource, 0)
    case Pay(ship, promo, wallet) => PaidWith(s.escrows[ship], promo, wallet)
    case Fund(ship, order) => FundedBy(s.escrows[ship], order)
    case Progress(ship, next) => s.escrows[ship].(status := next)
    case Release(ship, fee) => s.escrows[ship].(status := Released)
    case Return(ship, amount) => PaidBack(s.escrows[ship], Net(s.log, Of(Escrow(ship))), amount)
    case ConfirmShipment(id) => FundedBy(s.escrows[s.orders[id].shipmentId], id)
  }

  function EscrowsAfter(s: State, m: Move): map<string, EscrowRow>
    requires Legal(s, m)
  {
    match EscrowOf(s, m)
    case None => s.escrows
    case Some(ship) => s.escrows[ship := EscrowAfter(s, m)]
  }

  function OrdersAfter(s: State, m: Move): map<string, OrderRow>
    requires Legal(s, m)
  {
    match m
    case AddOrder(id, row) => s.orders[id := row]
    case ConfirmTopup(id) => s.orders[id := s.orders[id].(status := Confirmed)]
    case ConfirmShipment(id) => s.orders[id := s.orders[id].(status := Confirmed)]
    case DropOrder(id) => s.orders[id := s.orders[id].(status := OrderFailed)]
    case _ => s.orders
  }

  function VerifiedAfter(s: State, m: Move): set<string>
    requires Legal(s, m)
  {
    match m
    case ConfirmTopup(id) => s.verifyEvents + {id}
    case ConfirmShipment(id) => s.verifyEvents + {id}
    case _ => s.verifyEvents
  }

  function WithdrawalsAfter(s: State, m: Move): map<string, WithdrawalRow>
    requires Legal(s, m)
  {
    match m
    case Reserve(id, user, amount) => s.withdrawals[id := WithdrawalRow(user, amount, WPending)]
    case Advance(id, to) => s.withdrawals[id := s.withdrawals[id].(status := to)]
    case GiveBack(id, to) => s.withdrawals[id := s.withdrawals[id].(status := to)]
    case _ => s.withdrawals
  }

  function GrantsAfter(s: State, m: Move): map<string, GrantRow>
    requires Legal(s, m)
  {
    match m
    case Grant(id, user, amount, key) => s.grants[id := GrantRow(user, amount, Active, key)]
    case Reverse(id) => s.grants[id := s.grants[id].(status := Reversed)]
    // the row is written and the commit of the journal fails
    case LoseGrant(id, user, amount, key) => s.grants[id := GrantRow(user, amount, Active, key)]
    case LoseReverse(id) => s.grants[id := s.grants[id].(status := Reversed)]
    case _ => s.grants
  }

  /** The state after a move. */
  function Apply(s: State, m: Move): State
    requires Legal(s, m)
  {
    State(s.log + Journals(EffectOf(s, m)), EscrowsAfter(s, m), OrdersAfter(s, m), WithdrawalsAfter(s, m),
          GrantsAfter(s, m), VerifiedAfter(s, m))
  }

  // ---- the invariant ---------------------------------------------------------------------------

  /** Every journal is balanced over the integers and every key occurs once. */
  ghost predicate LogOk(log: Log) {
    UniqueKeys(log) && forall i :: 0 <= i < |log| ==> Balanced(log[i].lines)
  }

  predicate SourceTells(source: FundingSource, t: Story) {
    match source
    case NoSource => false
    case FromPsp => t.paid.promo == 0
    case FromWallet => t.paid.promo == 0
    case FromPromoCredit => t.paid.wallet == 0
    case Mixed => t.paid.promo > 0 && t.paid.wallet > 0
  }

  /** Each status fixes what the escrow holds; refunds take promo credit first. */
  predicate EscrowOk(e: EscrowRow, t: Story) {
    && 0 < e.amount <= MAX
    && 0 <= t.back.promo <= t.paid.promo && 0 <= t.back.wallet <= t.paid.wallet
    && (t.back.wallet > 0 ==> t.back.promo == t.paid.promo)
    && e.promoCreditFunded == t.paid.promo - t.back.promo
    && (e.status == Created ==> t.Blank() && e.source == NoSource)
    && (e.status != Created ==> t.paid.promo + t.paid.wallet == e.amount && SourceTells(e.source, t))
    && (e.status != Released ==> t.fee == 0 && t.carrierPaid == 0)
    && (e.source == FromPsp ==> e.paymentOrderId != "")
    && match e.status
       case Created => true
       case Funded => t.Held() == e.amount
       case DisputeWindow => t.Held() == e.amount
       case Frozen => t.Held() == e.amount
       case PartiallyRefunded => 0 < t.Held() < e.amount
       case Refunded => t.Held() == 0
       case Released => t.fee > 0 && t.carrierPaid > 0 && t.Held() == 0
       case Locked => false
  }

  /** The row of a shipment, or its absence, agrees with what the log says about its escrow. */
  ghost predicate EscrowTells(s: State, ship: string) {
    var t := StoryOf(s.log, ship);
    && Net(s.log, Of(Escrow(ship))) == t.Held()
    && Debits(s.log, Of(Escrow(ship))) == t.Out()
    && if ship in s.escrows then EscrowOk(s.escrows[ship], t) else t.Blank()
  }

  ghost predicate EscrowsOk(s: State) {
    forall ship :: EscrowTells(s, ship)
  }

  /** Wallets and escrows are never overdrawn, after any prefix of the log. */
  predicate Guarded(a: Account) {
    a.Wallet? || a.Escrow?
  }

  ghost predicate Solvent(log: Log)
    decreases |log|
  {
    log != [] ==>
      Solvent(log[..|log| - 1]) && forall a :: Guarded(a) ==> Net(log, Of(a)) >= 0
  }

  /** A confirmed order has posted its money; a posted shipment order is its escrow's payment. */
  ghost predicate OrdersOk(s: State) {
    && s.verifyEvents <= s.orders.Keys
    && forall id :: id in s.orders ==> OrderOk(s, id, s.orders[id])
  }

  ghost predicate OrderOk(s: State, id: string, o: OrderRow) {
    && o.amount > 0
    && (o.status == Confirmed ==> id in s.verifyEvents)
    && (o.purpose == Shipment ==>
          && o.shipmentId in s.escrows
          && s.escrows[o.shipmentId].payer == o.payer && s.escrows[o.shipmentId].amount == o.amount
          && (id in s.verifyEvents ==>
                && s.escrows[o.shipmentId].source == FromPsp
                && s.escrows[o.shipmentId].paymentOrderId == id))
    && (o.purpose == TopUp && id in s.verifyEvents ==> TopupJournal(id, o.payer, o.amount) in s.log)
  }

  /** Both funding journals of a PSP-funded escrow are in the log. */
  ghost predicate FundingRecorded(log: Log, ship: string, e: EscrowRow) {
    e.source == FromPsp ==>
      PspLeg(ship, e.paymentOrderId, e.payer, e.amount) in log && EscrowLeg(ship, e.paymentOrderId, e.payer, e.amount) in log
  }

  ghost predicate FundingOk(s: State) {
    forall ship :: ship in s.escrows ==> FundingRecorded(s.log, ship, s.escrows[ship])
  }

  /** The keys an escrow row accounts for, by the kind of journal. */
  function FundingRefs(ship: string, e: EscrowRow, rt: RefType): set<string> {
    match rt
    case PspToWallet => {PspWalletRef(ship, e.paymentOrderId)}
    case WalletToEscrow => {WalletEscrowRef(ship, e.paymentOrderId), WalletPayRef(ship)}
    case PromoCreditToEscrow => {WalletPayRef(ship)}
    case _ => {}
  }

  /** A funding key belongs to an escrow that has left CREATED. */
  ghost predicate FundingKeyTells(s: State, rt: RefType, ref: string) {
    (rt, ref) in Keys(s.log) ==>
      exists ship :: ship in s.escrows && s.escrows[ship].status != Created && ref in FundingRefs(ship, s.escrows[ship], rt)
  }

  ghost predicate FundingKeysOk(s: State) {
    forall rt, ref :: rt in {PspToWallet, WalletToEscrow, PromoCreditToEscrow} ==> FundingKeyTells(s, rt, ref)
  }

  ghost predicate AmountsOk(s: State) {
    && (forall id :: id in s.withdrawals ==> s.withdrawals[id].amount > 0)
    && (forall id :: id in s.grants ==> s.grants[id].amount > 0)
  }

  /** The journals behind a withdrawal and a posted grant are in the log, with the row's amounts. */
  ghost predicate WithdrawalRecorded(log: Log, id: string, w: WithdrawalRow) {
    && ReserveJournal(id, w.user, w.amount) in log
    && (w.status.Returned() ==> Reversal(id, w, w.status) in log)
  }

  ghost predicate GrantRecorded(log: Log, id: string, g: GrantRow) {
    && (GrantPosted(log, id) ==> GrantJournal(id, g.user, g.amount) in log)
    && (ReversalPosted(log, id) ==> ReverseJournal(id, g.user, g.amount) in log)
  }

  ghost predicate RecordsOk(s: State) {
    && (forall id :: id in s.withdrawals ==> WithdrawalRecorded(s.log, id, s.withdrawals[id]))
    && (forall id :: id in s.grants ==> GrantRecorded(s.log, id, s.grants[id]))
  }

  /** A withdrawal has exactly one reserve, and exactly one reversal when it failed or was rejected. */
  ghost predicate WithdrawalKeys(s: State, id: string) {
    && ((WithdrawalReserve, ReserveRef(id)) in Keys(s.log) <==> id in s.withdrawals)
    && ((WithdrawalRejectReversal, FailRef(id)) in Keys(s.log) <==> id in s.withdrawals && s.withdrawals[id].status == WFailed)
    && ((WithdrawalRejectReversal, RejectRef(id)) in Keys(s.log) <==> id in s.withdrawals && s.withdrawals[id].status == Rejected)
  }

  /** Journals of a grant need its row; the row may have lost its journal to a failed commit. */
  ghost predicate GrantKeys(s: State, id: string) {
    && (GrantPosted(s.log, id) ==> id in s.grants)
    && (ReversalPosted(s.log, id) ==> id in s.grants && s.grants[id].status == Reversed)
  }

  /** No commit of this grant or of its reversal has failed. */
  ghost predicate GrantWhole(s: State, id: string) {
    && (id in s.grants ==> GrantPosted(s.log, id))
    && (id in s.grants && s.grants[id].status == Reversed ==> ReversalPosted(s.log, id))
  }

  ghost predicate TopupKey(s: State, id: string) {
    (WalletTopup, TopupRef(id)) in Keys(s.log) <==> id in s.verifyEvents && id in s.orders && s.orders[id].purpose == TopUp
  }

  ghost predicate ReleaseKey(s: State, ship: string) {
    (EscrowRelease, ReleaseRef(ship)) in Keys(s.log) <==> ship in s.escrows && s.escrows[ship].status == Released
  }

  /** Which keys are taken, read off the tables. */
  ghost predicate KeysOk(s: State) {
    && (forall id :: WithdrawalKeys(s, id))
    && (forall id :: GrantKeys(s, id))
    && (forall id :: TopupKey(s, id))
    && (forall ship :: ReleaseKey(s, ship))
  }

  /** A shipment's refund keys of one kind are exactly its earlier legs, which never repeat an amount. */
  ghost predicate LegsTell(log: Log, rt: RefType, ship: string) {
    var legs := Legs(log, rt, ship);
    && (forall n: nat :: (rt, RefundRef(rt, ship, n)) in Keys(log) <==> n in legs)
    && Distinct(legs)
    && SumOf(legs) == BackIn(StoryOf(log, ship), rt)
  }

  function BackIn(t: Story, rt: RefType): int {
    if rt == EscrowRefundPromoCredit then t.back.promo else t.back.wallet
  }

  ghost predicate LegsOk(log: Log) {
    forall rt, ship :: IsRefund(rt) ==> LegsTell(log, rt, ship)
  }

  /** Positive and pairwise different. */
  ghost predicate Distinct(xs: seq<int>) {
    && (forall i :: 0 <= i < |xs| ==> xs[i] > 0)
    && (forall i, j :: 0 <= i < j < |xs| ==> xs[i] != xs[j])
  }

  function SumOf(xs: seq<int>): int {
    if xs == [] then 0 else SumOf(xs[..|xs| - 1]) + xs[|xs| - 1]
  }

  ghost function ReversedOf(s: State, user: string): map<string, int> {
    map id | id in s.grants && s.grants[id].user == user && s.grants[id].status == Reversed :: s.grants[id].amount
  }

  /** A promo balance goes below zero by no more than the user's reversed grants. */
  ghost predicate FloorHolds(s: State, user: string) {
    Net(s.log, Of(Promo(user))) + Total(ReversedOf(s, user)) >= 0
  }

  ghost predicate PromoFloor(s: State) {
    forall user :: FloorHolds(s, user)
  }

  ghost predicate Inv(s: State) {
    && LogOk(s.log)
    && EscrowsOk(s)
    && Agrees(s)
    && Solvent(s.log)
    && OrdersOk(s)
    && FundingOk(s)
    && AmountsOk(s)
    && RecordsOk(s)
    && KeysOk(s)
    && FundingKeysOk(s)
    && LegsOk(s.log)
    && PromoFloor(s)
  }

  // ---- serial runs -----------------------------------------------------------------------------

  /** When use cases run one after the other, a verified order stays CONFIRMED. */
  ghost predicate Serial(s: State) {
    forall id :: id in s.verifyEvents ==> id in s.orders && s.orders[id].status == Confirmed
  }

  predicate SerialMove(s: State, m: Move) {
    Legal(s, m) && (m.DropOrder? ==> s.orders[m.id].status != Confirmed)
  }

  ghost predicate Good(s: State) {
    Inv(s) && Serial(s)
  }
}
