/** The money machine: every use case as one atomic step on the ledger and the tables. */
module Machine {
  import opened Results
  import opened Int64
  import opened Accounts
  import opened Refs
  import opened Ledger
  import opened Postings
  import opened Domain

  datatype State = State(
    log: Log,
    escrows: map<string, EscrowRow>,
    orders: map<string, OrderRow>,
    withdrawals: map<string, WithdrawalRow>,
    grants: map<string, GrantRow>,
    // orders with a row in provider_events under the unique key "zibal:verify:<order>"
    verifyEvents: set<string>)

  const EMPTY := State([], map[], map[], map[], map[], {})

  /** What a use case leaves behind and answers. */
  datatype Done<+T> = Done(state: State, result: Result<T>)

  /** The end of a transaction: when its commit fails, all is undone but the grants, which are written outside it. A use
      case of a single statement fails in the same way. */
  function Ended<T>(s: State, d: Done<T>, commits: bool): Done<T> {
    if commits || d.result.Err? then d else Done(s.(grants := d.state.grants), Err(CommitFailed))
  }

  function Refuse<T>(s: State, e: Error): Done<T> {
    Done(s, Err(e))
  }

  function PutEscrow(s: State, log: Log, ship: string, e: EscrowRow): Done<EscrowRow> {
    Done(s.(log := log, escrows := s.escrows[ship := e]), Ok(e))
  }

  // ---- escrow ----------------------------------------------------------------------------------

  function CreateEscrow(s: State, ship: string, carrier: string, payer: string, amount: int64): Done<EscrowRow> {
    if ship == "" || carrier == "" || payer == "" || amount <= 0 then Refuse(s, InvalidAmount)
    else if ship in s.escrows then Refuse(s, DuplicateShipment)
    else PutEscrow(s, s.log, ship, EscrowRow(carrier, payer, amount, Created, "", NoSource, 0))
  }

  function FundingSourceForSplit(split: Split): FundingSource {
    if split.promoCredit > 0 && split.wallet > 0 then Mixed
    else if split.promoCredit > 0 then FromPromoCredit
    else FromWallet
  }

  function PayFromWallet(s: State, ship: string, payer: string, amount: int64): Done<EscrowRow> {
    if ship == "" || payer == "" || amount <= 0 then Refuse(s, InvalidAmount)
    else if ship !in s.escrows then Refuse(s, EscrowNotFound)
    else
      var e := s.escrows[ship];
      if e.payer != payer then Refuse(s, PayerMismatch)
      else if e.amount != amount then Refuse(s, EscrowAmountMismatch)
      else if !e.status.CanPayFromWallet() then Refuse(s, InvalidTransition)
      else
        var promo, wallet := Balance(s.log, Of(Promo(payer))), Balance(s.log, Of(Wallet(payer)));
        if promo.Err? || wallet.Err? then Refuse(s, SumOverflow)
        else
          var split := ResolvePayerFundingSplit(amount, promo.value, wallet.value);
          if split.Err? then Refuse(s, split.error)
          else
            var posted := Post(s.log, PayJournal(payer, ship, split.value, split.value.Total()));
            if posted.Err? then Refuse(s, posted.error)
            else PutEscrow(s, posted.value, ship,
                           e.(status := Funded, source := FundingSourceForSplit(split.value),
                              promoCreditFunded := split.value.promoCredit))
  }

  /** PSP money passes through the payer's wallet in two journals. */
  function FundEscrow(s: State, ship: string, order: string): Done<EscrowRow> {
    if ship == "" || order == "" then Refuse(s, InvalidAmount)
    else if ship !in s.escrows then Refuse(s, EscrowNotFound)
    else
      var e := s.escrows[ship];
      if !e.status.CanFund() then Refuse(s, InvalidTransition)
      else
        var posted := PostAll(s.log, [PspLeg(ship, order, e.payer, e.amount), EscrowLeg(ship, order, e.payer, e.amount)]);
        if posted.Err? then Refuse(s, posted.error)
        else PutEscrow(s, posted.value, ship, e.(status := Funded, paymentOrderId := order, source := FromPsp))
  }

  function MarkDelivered(s: State, ship: string): Done<EscrowRow> {
    if ship == "" then Refuse(s, InvalidAmount)
    else if ship !in s.escrows then Refuse(s, EscrowNotFound)
    else if !s.escrows[ship].status.CanMarkDelivered() then Refuse(s, InvalidTransition)
    else PutEscrow(s, s.log, ship, s.escrows[ship].(status := DisputeWindow))
  }

  function FreezeEscrow(s: State, ship: string): Done<EscrowRow> {
    if ship == "" then Refuse(s, InvalidAmount)
    else if ship !in s.escrows then Refuse(s, EscrowNotFound)
    else if !s.escrows[ship].status.CanFreeze() then Refuse(s, InvalidTransition)
    else PutEscrow(s, s.log, ship, s.escrows[ship].(status := Frozen))
  }

  /** feeProduct is the value of the floating-point product behind the platform fee. */
  function ReleaseEscrow(s: State, ship: string, feeProduct: int64): Done<EscrowRow> {
    if ship == "" then Refuse(s, InvalidAmount)
    else if ship !in s.escrows then Refuse(s, EscrowNotFound)
    else
      var e := s.escrows[ship];
      if !e.status.CanRelease() then Refuse(s, InvalidTransition)
      else
        var balance := Balance(s.log, Of(Escrow(ship)));
        if balance.Err? then Refuse(s, balance.error)
        else if balance.value <= 0 then Refuse(s, NoEscrowBalance)
        else
          var fee := CalcPlatformFee(balance.value, feeProduct);
          var posted := Post(s.log, ReleaseJournal(ship, e.carrier, balance.value, fee, Sub(balance.value, fee)));
          if posted.Err? then Refuse(s, posted.error)
          else PutEscrow(s, posted.value, ship, e.(status := Released))
  }

  /** Gives refund back to the payer out of an escrow that holds balance; both kinds of refund end here. */
  function PayRefund(s: State, ship: string, e: EscrowRow, balance: int, refund: int): Done<EscrowRow> {
    var (promoRefund, walletRefund) := RefundAllocation(refund, e.promoCreditFunded);
    var posted := PostAll(s.log, RefundJournals(e.payer, ship, promoRefund, walletRefund));
    if posted.Err? then Refuse(s, posted.error)
    else
      var left := Sub(e.promoCreditFunded, promoRefund);
      PutEscrow(s, posted.value, ship,
                e.(promoCreditFunded := if left < 0 then 0 else left,
                   status := if refund == balance then Refunded else PartiallyRefunded))
  }

  function RefundEscrow(s: State, ship: string): Done<EscrowRow> {
    if ship == "" then Refuse(s, InvalidAmount)
    else if ship !in s.escrows then Refuse(s, EscrowNotFound)
    else
      var e := s.escrows[ship];
      if !e.status.CanRefund() then Refuse(s, InvalidTransition)
      else
        var balance := Balance(s.log, Of(Escrow(ship)));
        if balance.Err? then Refuse(s, balance.error)
        else if balance.value <= 0 then Refuse(s, NoEscrowBalance)
        else PayRefund(s, ship, e, balance.value, balance.value)
  }

  function PartialRefundEscrow(s: State, ship: string, refund: int64): Done<EscrowRow> {
    if ship == "" || refund <= 0 then Refuse(s, InvalidAmount)
    else if ship !in s.escrows then Refuse(s, EscrowNotFound)
    else
      var e := s.escrows[ship];
      if !e.status.CanPartialRefund() then Refuse(s, InvalidTransition)
      else
        var balance := Balance(s.log, Of(Escrow(ship)));
        if balance.Err? then Refuse(s, balance.error)
        else if balance.value <= 0 then Refuse(s, NoEscrowBalance)
        else if refund > balance.value then Refuse(s, RefundExceedsBalance)
        else PayRefund(s, ship, e, balance.value, refund)
  }

  // ---- payment orders --------------------------------------------------------------------------

  function PutOrder(s: State, id: string, o: OrderRow): Done<OrderRow> {
    Done(s.(orders := s.orders[id := o]), Ok(o))
  }

  /** The order row is inserted before the provider is asked, and updated after: with the track id, or as FAILED when the
      provider refuses. track is the provider's reply: its track id, or nothing on an error; each of the two statements may
      fail, and a row that was inserted and not updated stays PENDING without an authority. */
  function InsertOrder(s: State, id: Uuid, o: OrderRow, track: Option<string>, inserts: bool, updates: bool): Done<OrderRow> {
    if id in s.orders then Refuse(s, DuplicateId)
    else if !inserts then Refuse(s, CommitFailed)
    else
      match track
      case None =>
        Done(s.(orders := s.orders[id := if updates then o.(status := OrderFailed) else o]), Err(ProviderRequestFailed))
      case Some(authority) =>
        if updates then PutOrder(s, id, o.(authority := authority))
        else Done(s.(orders := s.orders[id := o]), Err(CommitFailed))
  }

  function CreatePaymentOrder(s: State, id: Uuid, ship: string, payer: string, amount: int64,
                              successUrl: string, failureUrl: string, agreedPrice: int64,
                              track: Option<string>, inserts: bool, updates: bool): Done<OrderRow> {
    if ship == "" || payer == "" || amount <= 0 || successUrl == "" || failureUrl == "" then Refuse(s, PaymentInvalidInput)
    else if agreedPrice > 0 && agreedPrice != amount then Refuse(s, AmountMismatch)
    else if ship !in s.escrows then Refuse(s, EscrowNotFound)
    else
      var e := s.escrows[ship];
      if !e.status.CanFund() then Refuse(s, EscrowNotReady)
      else if e.payer != payer then Refuse(s, PayerMismatch)
      else if e.amount != amount then Refuse(s, AmountMismatch)
      else InsertOrder(s, id, OrderRow(ship, payer, Shipment, amount, Pending, ""), track, inserts, updates)
  }

  function CreateWalletTopupOrder(s: State, id: Uuid, user: string, amount: int64,
                                  successUrl: string, failureUrl: string, track: Option<string>,
                                  inserts: bool, updates: bool): Done<OrderRow> {
    if user == "" || amount <= 0 || successUrl == "" || failureUrl == "" then Refuse(s, PaymentInvalidInput)
    else InsertOrder(s, id, OrderRow("", user, TopUp, amount, Pending, ""), track, inserts, updates)
  }

  /** The money side of confirming an order. */
  function CreditOrder(s: State, id: string, o: OrderRow): Result<State> {
    match o.purpose
    case Shipment =>
      var funded := FundEscrow(s, o.shipmentId, id);
      if funded.result.Err? then Err(funded.result.error) else Ok(funded.state)
    case TopUp =>
      var posted :- Post(s.log, TopupJournal(id, o.payer, o.amount));
      Ok(s.(log := posted))
  }

  /** The transaction at the end of VerifyOrder, on the row as it is then. */
  function ConfirmOrder(s: State, id: string): Done<OrderRow> {
    if id !in s.orders then Refuse(s, OrderNotFound)
    else
      var o := s.orders[id];
      if o.status == Confirmed then Done(s, Ok(o))
      else
        var credited := CreditOrder(s, id, o);
        if credited.Err? then Refuse(s, credited.error)
        else if id in s.verifyEvents then Refuse(s, DuplicateEvent)
        else PutOrder(credited.value.(verifyEvents := s.verifyEvents + {id}), id, o.(status := Confirmed))
  }

  /** reply is the amount the provider verified, or nothing on an error. */
  function VerifyOrder(s: State, id: string, purpose: Option<Purpose>, reply: Option<int64>, commits: bool): Done<OrderRow> {
    if id !in s.orders then Refuse(s, OrderNotFound)
    else
      var o := s.orders[id];
      if purpose.Some? && o.purpose != purpose.value then Refuse(s, InvalidPurpose)
      else if o.status == Confirmed then Done(s, Ok(o))
      else if o.status == OrderFailed then Refuse(s, ProviderVerifyFailed)
      else if reply.None? then Refuse(s, ProviderVerifyFailed)
      else if reply.value != o.amount then Refuse(s, AmountMismatch)
      else Ended(s, ConfirmOrder(s, id), commits)
  }

  /** updates says whether its one statement that writes works. */
  function FailPaymentOrder(s: State, id: string, updates: bool): Done<OrderRow> {
    if id !in s.orders then Refuse(s, OrderNotFound)
    else if s.orders[id].status == Confirmed then Done(s, Ok(s.orders[id]))
    else if !updates then Refuse(s, CommitFailed)
    else PutOrder(s, id, s.orders[id].(status := OrderFailed))
  }

  /** The provider's callback: verify when it reports success, and fail the order on any verify error. The order is looked
      up by its authority once for each, and as authorities need not be unique the two rows, id and other, may differ. */
  function HandleCallback(s: State, id: string, other: string, success: bool, reply: Option<int64>, commits: bool,
                          updates: bool): Done<OrderRow> {
    if !success then FailPaymentOrder(s, other, updates)
    else
      var verified := VerifyOrder(s, id, None, reply, commits);
      if verified.result.Ok? then verified
      else
        var failed := FailPaymentOrder(verified.state, other, updates);
        if failed.result.Ok? then failed else Refuse(failed.state, verified.result.error)
  }

  // ---- withdrawals -----------------------------------------------------------------------------

  function PutWithdrawal(s: State, log: Log, id: string, w: WithdrawalRow): Done<WithdrawalRow> {
    Done(s.(log := log, withdrawals := s.withdrawals[id := w]), Ok(w))
  }

  function CreateWithdrawal(s: State, id: Uuid, user: string, amount: int64, iban: string,
                            userActive: bool, kycApproved: bool): Done<WithdrawalRow> {
    if user == "" || amount <= 0 || iban == "" then Refuse(s, WithdrawalInvalidInput)
    else if !userActive then Refuse(s, UserInactive)
    else if !kycApproved then Refuse(s, KycNotApproved)
    else
      var balance := Balance(s.log, Of(Wallet(user)));
      if balance.Err? then Refuse(s, balance.error)
      else if balance.value < amount then Refuse(s, InsufficientWallet)
      else if id in s.withdrawals then Refuse(s, DuplicateId)
      else
        var posted := Post(s.log, ReserveJournal(id, user, amount));
        if posted.Err? then Refuse(s, posted.error)
        else PutWithdrawal(s, posted.value, id, WithdrawalRow(user, amount, WPending))
  }

  /** A status change that moves no money. */
  function MoveWithdrawal(s: State, id: string, from: WithdrawalStatus, to: WithdrawalStatus): Done<WithdrawalRow> {
    if id !in s.withdrawals then Refuse(s, WithdrawalNotFound)
    else if s.withdrawals[id].status != from then Refuse(s, InvalidTransition)
    else PutWithdrawal(s, s.log, id, s.withdrawals[id].(status := to))
  }

  function ApproveWithdrawal(s: State, id: string): Done<WithdrawalRow> {
    if id == "" then Refuse(s, WithdrawalInvalidInput) else MoveWithdrawal(s, id, WPending, Approved)
  }

  function MarkWithdrawalSent(s: State, id: string, providerRef: string, channel: string, receipt: string): Done<WithdrawalRow> {
    if id == "" || providerRef == "" || channel == "" || receipt == "" then Refuse(s, WithdrawalInvalidInput)
    else MoveWithdrawal(s, id, Approved, SentToBank)
  }

  function SettleWithdrawal(s: State, id: string): Done<WithdrawalRow> {
    if id == "" then Refuse(s, WithdrawalInvalidInput) else MoveWithdrawal(s, id, SentToBank, Settled)
  }

  function ProcessWithdrawal(s: State, id: string, providerRef: string, channel: string, receipt: string): Done<WithdrawalRow> {
    if id == "" || providerRef == "" || channel == "" || receipt == "" then Refuse(s, WithdrawalInvalidInput)
    else MoveWithdrawal(s, id, WPending, Completed)
  }

  /** A status change that gives the reserve back. */
  function ReturnReserve(s: State, id: string, w: WithdrawalRow, reversal: Journal, to: WithdrawalStatus): Done<WithdrawalRow> {
    var posted := Post(s.log, reversal);
    if posted.Err? then Refuse(s, posted.error)
    else PutWithdrawal(s, posted.value, id, w.(status := to))
  }

  function FailWithdrawal(s: State, id: string, reason: string): Done<WithdrawalRow> {
    if id == "" || reason == "" then Refuse(s, WithdrawalInvalidInput)
    else if id !in s.withdrawals then Refuse(s, WithdrawalNotFound)
    else
      var w := s.withdrawals[id];
      if w.status != Approved && w.status != SentToBank then Refuse(s, InvalidTransition)
      else ReturnReserve(s, id, w, FailReversal(id, w.user, w.amount), WFailed)
  }

  function RejectWithdrawal(s: State, id: string): Done<WithdrawalRow> {
    if id == "" then Refuse(s, WithdrawalInvalidInput)
    else if id !in s.withdrawals then Refuse(s, WithdrawalNotFound)
    else
      var w := s.withdrawals[id];
      if w.status != WPending then Refuse(s, InvalidTransition)
      else ReturnReserve(s, id, w, RejectReversal(id, w.user, w.amount), Rejected)
  }

  // ---- promo credit ----------------------------------------------------------------------------

  predicate GrantTaken(s: State, id: string, key: string) {
    id in s.grants || exists g :: g in s.grants && s.grants[g].idempotencyKey == key
  }

  function GrantCredit(s: State, id: Uuid, user: string, amount: int64, reason: string, grantedBy: string, key: string): Done<GrantRow> {
    if user == "" || amount <= 0 || reason == "" || grantedBy == "" || key == "" then Refuse(s, CreditInvalidInput)
    else if GrantTaken(s, id, key) then Refuse(s, DuplicateGrant)
    else
      // the grant row is written outside the transaction and stays even when the journal is refused
      var g := GrantRow(user, amount, Active, key);
      var s1 := s.(grants := s.grants[id := g]);
      var posted := Post(s.log, GrantJournal(id, user, amount));
      if posted.Err? then Refuse(s1, posted.error) else Done(s1.(log := posted.value), Ok(g))
  }

  /** The transaction of a reversal, for a row g that was read before it: the row is marked by a conditional update,
      also outside the transaction, and only the call that marks it posts. */
  function ReverseLoaded(s: State, id: string, g: GrantRow): Done<GrantRow> {
    if id !in s.grants then Refuse(s, GrantNotFound)
    else if s.grants[id].status == Reversed then Refuse(s, AlreadyReversed)
    else
      var s1 := s.(grants := s.grants[id := s.grants[id].(status := Reversed)]);
      var posted := Post(s.log, ReverseJournal(id, g.user, g.amount));
      if posted.Err? then Refuse(s1, posted.error) else Done(s1.(log := posted.value), Ok(g.(status := Reversed)))
  }

  function ReverseCreditGrant(s: State, id: string, reason: string, reversedBy: string): Done<GrantRow> {
    if id == "" || reason == "" || reversedBy == "" then Refuse(s, CreditInvalidInput)
    else if id !in s.grants then Refuse(s, GrantNotFound)
    else if s.grants[id].status == Reversed then Refuse(s, AlreadyReversed)
    else ReverseLoaded(s, id, s.grants[id])
  }

  // ---- commands and runs -----------------------------------------------------------------------

  datatype UseCase =
    | DoCreateEscrow(ship: string, carrier: string, payer: string, amount: int64)
    | DoPayFromWallet(ship: string, payer: string, amount: int64)
    | DoFundEscrow(ship: string, order: string)
    | DoMarkDelivered(ship: string)
    | DoFreezeEscrow(ship: string)
    | DoReleaseEscrow(ship: string, feeProduct: int64)
    | DoRefundEscrow(ship: string)
    | DoPartialRefundEscrow(ship: string, refund: int64)
    | DoCreatePaymentOrder(uid: Uuid, ship: string, payer: string, amount: int64, successUrl: string,
                           failureUrl: string, agreedPrice: int64, track: Option<string>, updates: bool)
    | DoCreateWalletTopupOrder(uid: Uuid, user: string, amount: int64, successUrl: string, failureUrl: string,
                               track: Option<string>, updates: bool)
    | DoVerifyOrder(id: string, purpose: Option<Purpose>, reply: Option<int64>)
    | DoHandleCallback(id: string, other: string, success: bool, reply: Option<int64>, updates: bool)
    | DoCreateWithdrawal(uid: Uuid, user: string, amount: int64, iban: string, userActive: bool, kycApproved: bool)
    | DoApproveWithdrawal(id: string)
    | DoMarkWithdrawalSent(id: string, providerRef: string, channel: string, receipt: string)
    | DoSettleWithdrawal(id: string)
    | DoProcessWithdrawal(id: string, providerRef: string, channel: string, receipt: string)
    | DoFailWithdrawal(id: string, reason: string)
    | DoRejectWithdrawal(id: string)
    | DoGrantCredit(uid: Uuid, user: string, amount: int64, reason: string, grantedBy: string, key: string)
    | DoReverseCreditGrant(id: string, reason: string, reversedBy: string)

  /** One call of a use case, and whether the database commits it; of the two statements that create an order this is the
      first. */
  datatype Command = Command(useCase: UseCase, commits: bool)

  datatype Reply =
    | EscrowReply(escrow: EscrowRow)
    | OrderReply(order: OrderRow)
    | WithdrawalReply(withdrawal: WithdrawalRow)
    | GrantReply(grant: GrantRow)

  function Wrapped<T>(d: Done<T>, wrap: T -> Reply): Done<Reply> {
    Done(d.state, if d.result.Ok? then Ok(wrap(d.result.value)) else Err(d.result.error))
  }

  function OfEscrow(d: Done<EscrowRow>): Done<Reply> { Wrapped(d, e => EscrowReply(e)) }

  function OfOrder(d: Done<OrderRow>): Done<Reply> { Wrapped(d, o => OrderReply(o)) }

  function OfWithdrawal(d: Done<WithdrawalRow>): Done<Reply> { Wrapped(d, w => WithdrawalReply(w)) }

  function OfGrant(d: Done<GrantRow>): Done<Reply> { Wrapped(d, g => GrantReply(g)) }

  function Perform(s: State, u: UseCase): Done<Reply> {
    match u
    case DoCreateEscrow(ship, carrier, payer, amount) => OfEscrow(CreateEscrow(s, ship, carrier, payer, amount))
    case DoPayFromWallet(ship, payer, amount) => OfEscrow(PayFromWallet(s, ship, payer, amount))
    case DoFundEscrow(ship, order) => OfEscrow(FundEscrow(s, ship, order))
    case DoMarkDelivered(ship) => OfEscrow(MarkDelivered(s, ship))
    case DoFreezeEscrow(ship) => OfEscrow(FreezeEscrow(s, ship))
    case DoReleaseEscrow(ship, product) => OfEscrow(ReleaseEscrow(s, ship, product))
    case DoRefundEscrow(ship) => OfEscrow(RefundEscrow(s, ship))
    case DoPartialRefundEscrow(ship, refund) => OfEscrow(PartialRefundEscrow(s, ship, refund))
    case DoCreatePaymentOrder(id, ship, payer, amount, ok, bad, agreed, track, updates) =>
      OfOrder(CreatePaymentOrder(s, id, ship, payer, amount, ok, bad, agreed, track, true, updates))
    case DoCreateWalletTopupOrder(id, user, amount, ok, bad, track, updates) =>
      OfOrder(CreateWalletTopupOrder(s, id, user, amount, ok, bad, track, true, updates))
    case DoVerifyOrder(id, purpose, reply) => OfOrder(VerifyOrder(s, id, purpose, reply, true))
    case DoHandleCallback(id, other, success, reply, updates) =>
      OfOrder(HandleCallback(s, id, other, success, reply, true, updates))
    case DoCreateWithdrawal(id, user, amount, iban, active, kyc) =>
      OfWithdrawal(CreateWithdrawal(s, id, user, amount, iban, active, kyc))
    case DoApproveWithdrawal(id) => OfWithdrawal(ApproveWithdrawal(s, id))
    case DoMarkWithdrawalSent(id, ref, channel, receipt) => OfWithdrawal(MarkWithdrawalSent(s, id, ref, channel, receipt))
    case DoSettleWithdrawal(id) => OfWithdrawal(SettleWithdrawal(s, id))
    case DoProcessWithdrawal(id, ref, channel, receipt) => OfWithdrawal(ProcessWithdrawal(s, id, ref, channel, receipt))
    case DoFailWithdrawal(id, reason) => OfWithdrawal(FailWithdrawal(s, id, reason))
    case DoRejectWithdrawal(id) => OfWithdrawal(RejectWithdrawal(s, id))
    case DoGrantCredit(id, user, amount, reason, admin, key) => OfGrant(GrantCredit(s, id, user, amount, reason, admin, key))
    case DoReverseCreditGrant(id, reason, admin) => OfGrant(ReverseCreditGrant(s, id, reason, admin))
  }

  predicate OnEscrow(u: UseCase) {
    u.DoCreateEscrow? || u.DoPayFromWallet? || u.DoFundEscrow? || u.DoMarkDelivered? || u.DoFreezeEscrow?
    || u.DoReleaseEscrow? || u.DoRefundEscrow? || u.DoPartialRefundEscrow?
  }

  predicate OnOrder(u: UseCase) {
    u.DoCreatePaymentOrder? || u.DoCreateWalletTopupOrder? || u.DoVerifyOrder? || u.DoHandleCallback?
  }

  predicate OnGrant(u: UseCase) {
    u.DoGrantCredit? || u.DoReverseCreditGrant?
  }

  function Execute(s: State, c: Command): Done<Reply> {
    match c.useCase
    case DoCreatePaymentOrder(id, ship, payer, amount, ok, bad, agreed, track, updates) =>
      OfOrder(CreatePaymentOrder(s, id, ship, payer, amount, ok, bad, agreed, track, c.commits, updates))
    case DoCreateWalletTopupOrder(id, user, amount, ok, bad, track, updates) =>
      OfOrder(CreateWalletTopupOrder(s, id, user, amount, ok, bad, track, c.commits, updates))
    case DoVerifyOrder(id, purpose, reply) => OfOrder(VerifyOrder(s, id, purpose, reply, c.commits))
    case DoHandleCallback(id, other, success, reply, updates) =>
      OfOrder(HandleCallback(s, id, other, success, reply, c.commits, updates))
    case _ => Ended(s, Perform(s, c.useCase), c.commits)
  }

  /** A serial run of any commands in any order. */
  function Run(s: State, cs: seq<Command>): State {
    if cs == [] then s else Execute(Run(s, cs[..|cs| - 1]), cs[|cs| - 1]).state
  }

  /** What a call does with a grant, told in terms of its use case. */
  lemma ExecuteGrant(s: State, c: Command)
    requires c.useCase.DoGrantCredit?
    ensures var u := c.useCase;
            var d := Ended(s, GrantCredit(s, u.uid, u.user, u.amount, u.reason, u.grantedBy, u.key), c.commits);
            Execute(s, c).state == d.state && (Execute(s, c).result.Ok? <==> d.result.Ok?)
  {}

  lemma ExecuteReversal(s: State, c: Command)
    requires c.useCase.DoReverseCreditGrant?
    ensures var u := c.useCase;
            var d := Ended(s, ReverseCreditGrant(s, u.id, u.reason, u.reversedBy), c.commits);
            Execute(s, c).state == d.state && (Execute(s, c).result.Ok? <==> d.result.Ok?)
  {}
}
