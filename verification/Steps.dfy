/** Every use case is a legal move of the machine, or leaves the state alone. */
module Steps {
  import opened Results
  import opened Int64
  import opened Accounts
  import opened Refs
  import opened Ledger
  import opened Postings
  import opened Domain
  import opened Machine
  import opened Effects
  import opened Moves
  import opened Preservation
  import opened Bookkeeping

  /** What is left is the state, and a refused use case has not moved. */
  ghost predicate Did<T>(s: State, d: Done<T>, m: Move) {
    SerialMove(s, m) && d.state == Apply(s, m) && (d.result.Err? ==> m == Stay)
  }

  /** The same by a move that writes no grant. */
  ghost predicate DidPlain<T>(s: State, d: Done<T>, m: Move) {
    Did(s, d, m) && GrantOf(m) == None
  }

  /** The same for a use case on one escrow, whose row it writes when it succeeds. */
  ghost predicate DidOn<T>(s: State, d: Done<T>, m: Move, ship: string) {
    DidPlain(s, d, m) && (d.result.Ok? ==> EscrowOf(s, m) == Some(ship))
  }

  lemma StayStays(s: State)
    ensures Apply(s, Stay) == s
  {}

  // ---- escrow ----------------------------------------------------------------------------------

  lemma CreateEscrowStep(s: State, ship: string, carrier: string, payer: string, amount: int64) returns (m: Move)
    ensures DidOn(s, CreateEscrow(s, ship, carrier, payer, amount), m, ship)
  {
    StayStays(s);
    m := if CreateEscrow(s, ship, carrier, payer, amount).result.Ok? then Open(ship, carrier, payer, amount) else Stay;
  }

  /** An accepted payment's split is the promo balance up to the amount and the wallet for the rest. */
  lemma AcceptedSplit(amount: int64, promo: int64, wallet: int64, payer: string, ship: string, split: Split)
    requires 0 < amount && -MAX <= promo && -MAX <= wallet && ResolvePayerFundingSplit(amount, promo, wallet) == Ok(split)
    requires Verdict(EscrowPayLines(payer, ship, split, split.Total())) == None
    ensures 0 <= split.promoCredit <= promo && 0 <= split.wallet <= wallet
    ensures split.promoCredit + split.wallet == amount && split.Total() == amount
  {
    PaymentAccepted(amount, promo, wallet, payer, ship);
  }

  /** What an accepted payment has checked, and what it leaves. */
  lemma PaidIs(s: State, ship: string, payer: string, amount: int64) returns (split: Split)
    requires PayFromWallet(s, ship, payer, amount).result.Ok?
    ensures ship in s.escrows && s.escrows[ship].payer == payer && s.escrows[ship].amount == amount
    ensures s.escrows[ship].status == Created
    ensures 0 <= split.promoCredit <= Net(s.log, Of(Promo(payer))) && 0 <= split.wallet <= Net(s.log, Of(Wallet(payer)))
    ensures split.promoCredit + split.wallet == amount
    ensures var j := PayJournal(payer, ship, split, amount);
            && Fresh(s.log, j)
            && PayFromWallet(s, ship, payer, amount).state ==
               s.(log := s.log + [j], escrows := s.escrows[ship := PaidWith(s.escrows[ship], split.promoCredit, split.wallet)])
  {
    var promo, wallet := Balance(s.log, Of(Promo(payer))), Balance(s.log, Of(Wallet(payer)));
    split := ResolvePayerFundingSplit(amount, promo.value, wallet.value).value;
    AcceptedSplit(amount, promo.value, wallet.value, payer, ship, split);
  }

  lemma PayFromWalletStep(s: State, ship: string, payer: string, amount: int64) returns (m: Move)
    ensures DidOn(s, PayFromWallet(s, ship, payer, amount), m, ship)
  {
    StayStays(s);
    m := Stay;
    if PayFromWallet(s, ship, payer, amount).result.Ok? {
      var split := PaidIs(s, ship, payer, amount);
      m := Pay(ship, split.promoCredit, split.wallet);
      PaysLegally(s, ship, split, PayFromWallet(s, ship, payer, amount).state);
    }
  }

  lemma PaysLegally(s: State, ship: string, split: Split, t: State)
    requires ship in s.escrows && s.escrows[ship].status == Created
    requires 0 <= split.promoCredit <= Net(s.log, Of(Promo(s.escrows[ship].payer)))
    requires 0 <= split.wallet <= Net(s.log, Of(Wallet(s.escrows[ship].payer)))
    requires split.promoCredit + split.wallet == s.escrows[ship].amount
    requires var e, j := s.escrows[ship], PayJournal(s.escrows[ship].payer, ship, split, s.escrows[ship].amount);
             && Fresh(s.log, j)
             && t == s.(log := s.log + [j], escrows := s.escrows[ship := PaidWith(e, split.promoCredit, split.wallet)])
    ensures var m := Pay(ship, split.promoCredit, split.wallet);
            SerialMove(s, m) && t == Apply(s, m)
  {
    assert split == Split(split.promoCredit, split.wallet);
  }

  lemma FundingPosts(log: Log, ship: string, order: string, payer: string, amount: int)
    requires amount > 0
    ensures var p, q := PspLeg(ship, order, payer, amount), EscrowLeg(ship, order, payer, amount);
            PostAll(log, [p, q]) == if Fresh(log, p) && Fresh(log, q) then Ok(log + [p, q]) else Err(DuplicateJournal)
  {
    var p, q := PspLeg(ship, order, payer, amount), EscrowLeg(ship, order, payer, amount);
    TransferSound(p.refType, p.refId, PspClearing, Wallet(payer), amount);
    TransferSound(q.refType, q.refId, Wallet(payer), Escrow(ship), amount);
    KeysAt(log, p);
    assert [p, q][1..] == [q];
    PostAllOne(log + [p], q);
    assert (log + [p]) + [q] == log + [p, q];
  }

  lemma FundEscrowStep(s: State, ship: string, order: string) returns (m: Move)
    requires EscrowTells(s, ship)
    ensures DidOn(s, FundEscrow(s, ship, order), m, ship)
    ensures m == if FundEscrow(s, ship, order).result.Ok? then Fund(ship, order) else Stay
  {
    StayStays(s);
    m := Stay;
    if FundEscrow(s, ship, order).result.Ok? {
      m := Fund(ship, order);
      var e := s.escrows[ship];
      FundingPosts(s.log, ship, order, e.payer, e.amount);
    }
  }

  lemma MarkDeliveredStep(s: State, ship: string) returns (m: Move)
    ensures DidOn(s, MarkDelivered(s, ship), m, ship)
  {
    StayStays(s);
    m := if MarkDelivered(s, ship).result.Ok? then Progress(ship, DisputeWindow) else Stay;
    assert s.log + [] == s.log;
  }

  lemma FreezeEscrowStep(s: State, ship: string) returns (m: Move)
    ensures DidOn(s, FreezeEscrow(s, ship), m, ship)
  {
    StayStays(s);
    m := if FreezeEscrow(s, ship).result.Ok? then Progress(ship, Frozen) else Stay;
    assert s.log + [] == s.log;
  }

  lemma ReleaseEscrowStep(s: State, ship: string, product: int64) returns (m: Move)
    ensures DidOn(s, ReleaseEscrow(s, ship, product), m, ship)
  {
    StayStays(s);
    m := Stay;
    if ReleaseEscrow(s, ship, product).result.Ok? {
      var balance := Balance(s.log, Of(Escrow(ship))).value;
      var fee := CalcPlatformFee(balance, product);
      ReleaseSound(ship, s.escrows[ship].carrier, balance, fee);
      m := Release(ship, fee);
    }
  }

  /** In a consistent escrow the promo counter stays in range, so its clamp to zero is never taken. */
  lemma ClampNeverTaken(s: State, ship: string, refund: int)
    requires ship in s.escrows && EscrowTells(s, ship)
    ensures var e := s.escrows[ship];
            var left := e.promoCreditFunded - Back(e, refund).0;
            0 <= left <= MAX && Sub(e.promoCreditFunded, Back(e, refund).0) == left
  {}

  function RefundsOf(e: EscrowRow, ship: string, refund: int): seq<Journal>
    requires refund > 0
  {
    RefundJournals(e.payer, ship, Back(e, refund).0, Back(e, refund).1)
  }

  lemma RefundPosts(s: State, ship: string, refund: int)
    requires ship in s.escrows && s.escrows[ship].status.CanRefund()
    requires 0 < refund <= Net(s.log, Of(Escrow(ship))) <= MAX
    ensures var posted := PostAll(s.log, RefundsOf(s.escrows[ship], ship, refund));
            && (posted.Ok? <==> Legal(s, Return(ship, refund)))
            && (posted.Ok? ==> posted.value == s.log + RefundsOf(s.escrows[ship], ship, refund))
  {
    var e := s.escrows[ship];
    RefundPostsBoth(s.log, e.payer, ship, Back(e, refund).0, Back(e, refund).1);
  }

  lemma PayRefundStep(s: State, ship: string, refund: int) returns (m: Move)
    requires ship in s.escrows && EscrowTells(s, ship) && s.escrows[ship].status.CanRefund()
    requires 0 < refund <= Net(s.log, Of(Escrow(ship))) <= MAX
    ensures DidOn(s, PayRefund(s, ship, s.escrows[ship], Net(s.log, Of(Escrow(ship))), refund), m, ship)
  {
    StayStays(s);
    RefundPosts(s, ship, refund);
    m := Stay;
    if Legal(s, Return(ship, refund)) {
      m := Return(ship, refund);
      RefundReturns(s, ship, refund);
    }
  }

  lemma RefundReturns(s: State, ship: string, refund: int)
    requires ship in s.escrows && EscrowTells(s, ship) && Legal(s, Return(ship, refund))
    ensures var d := PayRefund(s, ship, s.escrows[ship], Net(s.log, Of(Escrow(ship))), refund);
            d.result.Ok? && d.state == Apply(s, Return(ship, refund))
  {
    RefundPosts(s, ship, refund);
    ClampNeverTaken(s, ship, refund);
  }

  lemma RefundEscrowStep(s: State, ship: string) returns (m: Move)
    requires EscrowTells(s, ship)
    ensures DidOn(s, RefundEscrow(s, ship), m, ship)
  {
    StayStays(s);
    m := Stay;
    if RefundEscrow(s, ship).result.Ok? {
      m := PayRefundStep(s, ship, Net(s.log, Of(Escrow(ship))));
    }
  }

  lemma PartialRefundEscrowStep(s: State, ship: string, refund: int64) returns (m: Move)
    requires EscrowTells(s, ship)
    ensures DidOn(s, PartialRefundEscrow(s, ship, refund), m, ship)
  {
    StayStays(s);
    m := Stay;
    if PartialRefundEscrow(s, ship, refund).result.Ok? {
      m := PayRefundStep(s, ship, refund);
    }
  }

  // ---- payment orders --------------------------------------------------------------------------

  /** Creating an order inserts its row, also when the provider or the second statement then fails. */
  lemma InsertOrderStep(s: State, id: Uuid, o: OrderRow, track: Option<string>, inserts: bool, updates: bool) returns (m: Move)
    requires o.amount > 0 && o.status == Pending
    requires o.purpose == Shipment ==>
               o.shipmentId in s.escrows && s.escrows[o.shipmentId].payer == o.payer && s.escrows[o.shipmentId].amount == o.amount
    ensures SerialMove(s, m) && InsertOrder(s, id, o, track, inserts, updates).state == Apply(s, m) && GrantOf(m) == None
    ensures InsertOrder(s, id, o, track, inserts, updates).result.Err? ==>
              m == Stay || (m.AddOrder? && (track.None? || !updates))
  {
    StayStays(s);
    m := Stay;
    if id !in s.orders && inserts {
      var row := if !updates then o else if track.None? then o.(status := OrderFailed) else o.(authority := track.value);
      m := AddOrder(id, row);
    }
    assert s.log + [] == s.log;
  }

  lemma CreatePaymentOrderStep(s: State, id: Uuid, ship: string, payer: string, amount: int64, successUrl: string,
                               failureUrl: string, agreedPrice: int64, track: Option<string>, inserts: bool, updates: bool)
    returns (m: Move)
    ensures var d := CreatePaymentOrder(s, id, ship, payer, amount, successUrl, failureUrl, agreedPrice, track, inserts, updates);
            && SerialMove(s, m) && d.state == Apply(s, m) && GrantOf(m) == None
            && (d.result.Err? ==> m == Stay || (m.AddOrder? && (track.None? || !updates)))
  {
    StayStays(s);
    m := Stay;
    var o := OrderRow(ship, payer, Shipment, amount, Pending, "");
    if CreatePaymentOrder(s, id, ship, payer, amount, successUrl, failureUrl, agreedPrice, track, inserts, updates) ==
       InsertOrder(s, id, o, track, inserts, updates)
       && ship in s.escrows && s.escrows[ship].payer == payer && s.escrows[ship].amount == amount && amount > 0 {
      m := InsertOrderStep(s, id, o, track, inserts, updates);
    }
  }

  lemma CreateWalletTopupOrderStep(s: State, id: Uuid, user: string, amount: int64, successUrl: string,
                                   failureUrl: string, track: Option<string>, inserts: bool, updates: bool) returns (m: Move)
    ensures var d := CreateWalletTopupOrder(s, id, user, amount, successUrl, failureUrl, track, inserts, updates);
            && SerialMove(s, m) && d.state == Apply(s, m) && GrantOf(m) == None
            && (d.result.Err? ==> m == Stay || (m.AddOrder? && (track.None? || !updates)))
  {
    StayStays(s);
    m := Stay;
    if user != "" && amount > 0 && successUrl != "" && failureUrl != "" {
      m := InsertOrderStep(s, id, OrderRow("", user, TopUp, amount, Pending, ""), track, inserts, updates);
    }
  }

  lemma ConfirmTopupStep(s: State, id: string)
    requires id in s.orders && s.orders[id].purpose == TopUp && s.orders[id].status != Confirmed
    requires ConfirmOrder(s, id).result.Ok?
    ensures Legal(s, ConfirmTopup(id)) && ConfirmOrder(s, id).state == Apply(s, ConfirmTopup(id))
  {}

  lemma ConfirmShipmentStep(s: State, id: string)
    requires id in s.orders && s.orders[id].purpose == Shipment && s.orders[id].status != Confirmed
    requires EscrowTells(s, s.orders[id].shipmentId) && ConfirmOrder(s, id).result.Ok?
    ensures Legal(s, ConfirmShipment(id)) && ConfirmOrder(s, id).state == Apply(s, ConfirmShipment(id))
  {
    var fund := FundEscrowStep(s, s.orders[id].shipmentId, id);
  }

  /** The transaction that confirms an order is a legal move also when other calls have come in between. */
  lemma ConfirmOrderStep(s: State, id: string) returns (m: Move)
    requires id in s.orders ==> EscrowTells(s, s.orders[id].shipmentId)
    ensures DidPlain(s, ConfirmOrder(s, id), m)
  {
    StayStays(s);
    m := Stay;
    if ConfirmOrder(s, id).result.Ok? && s.orders[id].status != Confirmed {
      if s.orders[id].purpose == TopUp {
        ConfirmTopupStep(s, id);
        m := ConfirmTopup(id);
      } else {
        ConfirmShipmentStep(s, id);
        m := ConfirmShipment(id);
      }
    }
  }

  /** A failed commit of a step that writes no grant leaves nothing. */
  lemma EndedStays<T>(s: State, d: Done<T>, m: Move)
    requires Did(s, d, m) && GrantOf(m) == None
    ensures Ended(s, d, false).state == s
  {
    StayStays(s);
  }

  lemma VerifyOrderStep(s: State, id: string, purpose: Option<Purpose>, reply: Option<int64>, commits: bool) returns (m: Move)
    requires id in s.orders ==> EscrowTells(s, s.orders[id].shipmentId)
    ensures DidPlain(s, VerifyOrder(s, id, purpose, reply, commits), m)
  {
    StayStays(s);
    var confirm := ConfirmOrderStep(s, id);
    EndedStays(s, ConfirmOrder(s, id), confirm);
    m := if VerifyOrder(s, id, purpose, reply, commits).result.Ok? && s.orders[id].status != Confirmed then confirm else Stay;
  }

  lemma FailPaymentOrderStep(s: State, id: string, updates: bool) returns (m: Move)
    ensures DidPlain(s, FailPaymentOrder(s, id, updates), m)
  {
    StayStays(s);
    m := if id in s.orders && s.orders[id].status != Confirmed && updates then DropOrder(id) else Stay;
    assert s.log + [] == s.log;
  }

  lemma HandleCallbackStep(s: State, id: string, other: string, success: bool, reply: Option<int64>, commits: bool, updates: bool)
    returns (m: Move)
    requires id in s.orders ==> EscrowTells(s, s.orders[id].shipmentId)
    ensures DidPlain(s, HandleCallback(s, id, other, success, reply, commits, updates), m)
  {
    StayStays(s);
    if success {
      m := VerifyOrderStep(s, id, None, reply, commits);
      if VerifyOrder(s, id, None, reply, commits).result.Err? {
        m := FailPaymentOrderStep(s, other, updates);
      }
    } else {
      m := FailPaymentOrderStep(s, other, updates);
    }
  }

  // ---- withdrawals -----------------------------------------------------------------------------

  lemma CreateWithdrawalStep(s: State, id: Uuid, user: string, amount: int64, iban: string, userActive: bool, kycApproved: bool)
    returns (m: Move)
    ensures DidPlain(s, CreateWithdrawal(s, id, user, amount, iban, userActive, kycApproved), m)
  {
    StayStays(s);
    m := if CreateWithdrawal(s, id, user, amount, iban, userActive, kycApproved).result.Ok? then Reserve(id, user, amount) else Stay;
  }

  lemma MoveWithdrawalStep(s: State, id: string, from: WithdrawalStatus, to: WithdrawalStatus) returns (m: Move)
    requires CanAdvance(from, to)
    ensures DidPlain(s, MoveWithdrawal(s, id, from, to), m)
  {
    StayStays(s);
    m := if MoveWithdrawal(s, id, from, to).result.Ok? then Advance(id, to) else Stay;
    assert s.log + [] == s.log;
  }

  lemma FailWithdrawalStep(s: State, id: string, reason: string) returns (m: Move)
    ensures DidPlain(s, FailWithdrawal(s, id, reason), m)
  {
    StayStays(s);
    m := if FailWithdrawal(s, id, reason).result.Ok? then GiveBack(id, WFailed) else Stay;
  }

  lemma RejectWithdrawalStep(s: State, id: string) returns (m: Move)
    ensures DidPlain(s, RejectWithdrawal(s, id), m)
  {
    StayStays(s);
    m := if RejectWithdrawal(s, id).result.Ok? then GiveBack(id, Rejected) else Stay;
  }

  // ---- promo credit ----------------------------------------------------------------------------

  /** A fresh grant's journal is never refused, so its row is never left without one. */
  lemma GrantPosts(s: State, id: Uuid, user: string, amount: int)
    requires GrantKeys(s, id) && id !in s.grants && amount > 0
    ensures Post(s.log, GrantJournal(id, user, amount)) == Ok(s.log + [GrantJournal(id, user, amount)])
  {
    TransferSound(PromoCreditGrant, id, PromoExpense, Promo(user), amount);
  }

  lemma GrantCreditStep(s: State, id: Uuid, user: string, amount: int64, reason: string, grantedBy: string, key: string)
    returns (m: Move)
    requires GrantKeys(s, id)
    ensures var d := GrantCredit(s, id, user, amount, reason, grantedBy, key);
            Did(s, d, m) && (m == Stay || (m.Grant? && m.id == id && d.result.Ok?))
  {
    StayStays(s);
    m := Stay;
    if user != "" && amount > 0 && reason != "" && grantedBy != "" && key != "" && !Machine.GrantTaken(s, id, key) {
      GrantPosts(s, id, user, amount);
      m := Grant(id, user, amount, key);
    }
  }

  lemma ReversePosts(s: State, id: string)
    requires GrantKeys(s, id) && id in s.grants && s.grants[id].status == Active && s.grants[id].amount > 0
    ensures var j := ReverseJournal(id, s.grants[id].user, s.grants[id].amount);
            Post(s.log, j) == Ok(s.log + [j])
  {
    TransferSound(PromoCreditReverse, ReverseRef(id), Promo(s.grants[id].user), PromoExpense, s.grants[id].amount);
  }

  lemma ReverseCreditGrantStep(s: State, id: string, reason: string, reversedBy: string) returns (m: Move)
    requires GrantKeys(s, id) && AmountsOk(s)
    ensures var d := ReverseCreditGrant(s, id, reason, reversedBy);
            Did(s, d, m) && (m == Stay || (m.Reverse? && m.id == id && d.result.Ok?))
  {
    StayStays(s);
    m := Stay;
    if id != "" && reason != "" && reversedBy != "" && id in s.grants && s.grants[id].status == Active {
      ReversePosts(s, id);
      m := Reverse(id);
    }
  }

  // ---- every command ---------------------------------------------------------------------------

  /** Creating an order fails but leaves its row when the provider refuses it or its second statement fails. */
  predicate LeavesOrder(u: UseCase) {
    (u.DoCreatePaymentOrder? || u.DoCreateWalletTopupOrder?) && (u.track.None? || !u.updates)
  }

  /** The commands that may leave a row behind although they fail: those, and grants whose commit fails. */
  predicate LeavesRow(c: Command) {
    LeavesOrder(c.useCase) || (OnGrant(c.useCase) && !c.commits)
  }

  lemma EscrowTellsIn(s: State, ship: string)
    requires Inv(s)
    ensures EscrowTells(s, ship)
  {}

  lemma OrderTellsIn(s: State, id: string)
    requires Inv(s)
    ensures id in s.orders ==> EscrowTells(s, s.orders[id].shipmentId)
  {}

  lemma GrantKeysIn(s: State, id: string)
    requires Inv(s)
    ensures GrantKeys(s, id) && AmountsOk(s)
  {}

  lemma FundingUseCase(s: State, u: UseCase) returns (m: Move)
    requires Inv(s) && (u.DoCreateEscrow? || u.DoPayFromWallet? || u.DoFundEscrow?)
    ensures DidOn(s, Perform(s, u), m, u.ship)
  {
    EscrowTellsIn(s, u.ship);
    match u
    case DoCreateEscrow(ship, carrier, payer, amount) => m := CreateEscrowStep(s, ship, carrier, payer, amount);
    case DoPayFromWallet(ship, payer, amount) => m := PayFromWalletStep(s, ship, payer, amount);
    case DoFundEscrow(ship, order) => m := FundEscrowStep(s, ship, order);
  }

  lemma EscrowUseCase(s: State, u: UseCase) returns (m: Move)
    requires Inv(s) && OnEscrow(u) && !u.DoCreateEscrow? && !u.DoPayFromWallet? && !u.DoFundEscrow?
    ensures DidOn(s, Perform(s, u), m, u.ship)
  {
    EscrowTellsIn(s, u.ship);
    match u
    case DoMarkDelivered(ship) => m := MarkDeliveredStep(s, ship);
    case DoFreezeEscrow(ship) => m := FreezeEscrowStep(s, ship);
    case DoReleaseEscrow(ship, product) => m := ReleaseEscrowStep(s, ship, product);
    case DoRefundEscrow(ship) => m := RefundEscrowStep(s, ship);
    case DoPartialRefundEscrow(ship, refund) => m := PartialRefundEscrowStep(s, ship, refund);
  }

  lemma StatusUseCase(s: State, u: UseCase) returns (m: Move)
    requires u.DoApproveWithdrawal? || u.DoMarkWithdrawalSent? || u.DoSettleWithdrawal? || u.DoProcessWithdrawal?
    ensures DidPlain(s, Perform(s, u), m)
  {
    StayStays(s);
    m := Stay;
    if Perform(s, u).result.Ok? {
      match u
      case DoApproveWithdrawal(id) => m := MoveWithdrawalStep(s, id, WPending, Approved);
      case DoMarkWithdrawalSent(id, _, _, _) => m := MoveWithdrawalStep(s, id, Approved, SentToBank);
      case DoSettleWithdrawal(id) => m := MoveWithdrawalStep(s, id, SentToBank, Settled);
      case DoProcessWithdrawal(id, _, _, _) => m := MoveWithdrawalStep(s, id, WPending, Completed);
    }
  }

  lemma PayoutUseCase(s: State, u: UseCase) returns (m: Move)
    requires !OnEscrow(u) && !OnOrder(u) && !OnGrant(u)
    ensures DidPlain(s, Perform(s, u), m)
  {
    match u
    case DoCreateWithdrawal(id, user, amount, iban, active, kyc) =>
      m := CreateWithdrawalStep(s, id, user, amount, iban, active, kyc);
    case DoFailWithdrawal(id, reason) => m := FailWithdrawalStep(s, id, reason);
    case DoRejectWithdrawal(id) => m := RejectWithdrawalStep(s, id);
    case _ => m := StatusUseCase(s, u);
  }

  /** A grant whose commit fails keeps the row and loses the journal. */
  lemma GrantCommand(s: State, id: Uuid, user: string, amount: int64, reason: string, admin: string, key: string, commits: bool)
    returns (m: Move)
    requires GrantKeys(s, id)
    ensures var d := Ended(s, GrantCredit(s, id, user, amount, reason, admin, key), commits);
            SerialMove(s, m) && d.state == Apply(s, m) && (d.result.Err? ==> m == Stay || m.LoseGrant?)
    ensures m == Stay || (m.LoseGrant? && m.id == id && !commits) || (m.Grant? && m.id == id && commits)
  {
    m := GrantCreditStep(s, id, user, amount, reason, admin, key);
    if !commits && GrantCredit(s, id, user, amount, reason, admin, key).result.Ok? {
      m := LoseGrant(id, user, amount, key);
      assert s.log + [] == s.log;
    }
  }

  lemma ReverseCommand(s: State, id: string, reason: string, admin: string, commits: bool) returns (m: Move)
    requires GrantKeys(s, id) && AmountsOk(s)
    ensures var d := Ended(s, ReverseCreditGrant(s, id, reason, admin), commits);
            SerialMove(s, m) && d.state == Apply(s, m) && (d.result.Err? ==> m == Stay || m.LoseReverse?)
    ensures m == Stay || (m.LoseReverse? && m.id == id && !commits) || (m.Reverse? && m.id == id && commits)
  {
    m := ReverseCreditGrantStep(s, id, reason, admin);
    if !commits && ReverseCreditGrant(s, id, reason, admin).result.Ok? {
      m := LoseReverse(id);
      assert s.log + [] == s.log;
    }
  }

  /** What a command that fails may still have done. */
  predicate Residue(c: Command, m: Move) {
    || m == Stay
    || (m.AddOrder? && LeavesOrder(c.useCase))
    || ((m.LoseGrant? || m.LoseReverse?) && OnGrant(c.useCase) && !c.commits)
  }

  /** Only the use cases of grants write grants: their own, and without the journal exactly when the commit fails. */
  predicate GrantMove(c: Command, m: Move) {
    match m
    case Grant(id, _, _, _) => c.commits && c.useCase.DoGrantCredit? && c.useCase.uid == id
    case LoseGrant(id, _, _, _) => !c.commits && c.useCase.DoGrantCredit? && c.useCase.uid == id
    case Reverse(id) => c.commits && c.useCase.DoReverseCreditGrant? && c.useCase.id == id
    case LoseReverse(id) => !c.commits && c.useCase.DoReverseCreditGrant? && c.useCase.id == id
    case _ => true
  }

  /** The move of one command, what it leaves on failure, and what it writes on success. */
  ghost predicate Executes(s: State, c: Command, m: Move) {
    && SerialMove(s, m) && Execute(s, c).state == Apply(s, m)
    && (Execute(s, c).result.Err? ==> Residue(c, m))
    && (Execute(s, c).result.Ok? && OnEscrow(c.useCase) ==> EscrowOf(s, m) == Some(c.useCase.ship))
    && GrantMove(c, m)
  }

  lemma PlainCommand(s: State, c: Command, m: Move)
    requires DidPlain(s, Perform(s, c.useCase), m) && !OnOrder(c.useCase)
    requires Perform(s, c.useCase).result.Ok? && OnEscrow(c.useCase) ==> EscrowOf(s, m) == Some(c.useCase.ship)
    ensures Executes(s, c, if c.commits then m else Stay)
  {
    StayStays(s);
    EndedStays(s, Perform(s, c.useCase), m);
  }

  lemma CreationCommand(s: State, c: Command) returns (m: Move)
    requires c.useCase.DoCreatePaymentOrder? || c.useCase.DoCreateWalletTopupOrder?
    ensures Executes(s, c, m)
  {
    match c.useCase
    case DoCreatePaymentOrder(id, ship, payer, amount, ok, bad, agreed, track, updates) =>
      m := CreatePaymentOrderStep(s, id, ship, payer, amount, ok, bad, agreed, track, c.commits, updates);
    case DoCreateWalletTopupOrder(id, user, amount, ok, bad, track, updates) =>
      m := CreateWalletTopupOrderStep(s, id, user, amount, ok, bad, track, c.commits, updates);
  }

  lemma VerifyCommand(s: State, c: Command) returns (m: Move)
    requires c.useCase.DoVerifyOrder?
    requires c.useCase.id in s.orders ==> EscrowTells(s, s.orders[c.useCase.id].shipmentId)
    ensures Executes(s, c, m)
  {
    m := VerifyOrderStep(s, c.useCase.id, c.useCase.purpose, c.useCase.reply, c.commits);
  }

  lemma CallbackCommand(s: State, c: Command) returns (m: Move)
    requires c.useCase.DoHandleCallback?
    requires c.useCase.id in s.orders ==> EscrowTells(s, s.orders[c.useCase.id].shipmentId)
    ensures Executes(s, c, m)
  {
    var u := c.useCase;
    m := HandleCallbackStep(s, u.id, u.other, u.success, u.reply, c.commits, u.updates);
  }

  lemma CreditCommand(s: State, c: Command) returns (m: Move)
    requires c.useCase.DoGrantCredit? && GrantKeys(s, c.useCase.uid)
    ensures Executes(s, c, m)
  {
    var u := c.useCase;
    ExecuteGrant(s, c);
    m := GrantCommand(s, u.uid, u.user, u.amount, u.reason, u.grantedBy, u.key, c.commits);
  }

  lemma ReversalCommand(s: State, c: Command) returns (m: Move)
    requires c.useCase.DoReverseCreditGrant? && GrantKeys(s, c.useCase.id) && AmountsOk(s)
    ensures Executes(s, c, m)
  {
    var u := c.useCase;
    ExecuteReversal(s, c);
    m := ReverseCommand(s, u.id, u.reason, u.reversedBy, c.commits);
  }

  /** Every use case, in a state that keeps the invariant and whether or not its commit succeeds, is one legal move; one that
      fails leaves the state exactly as it was, except that an order stays behind when the provider refuses it or its second
      statement fails, and a grant or its reversal, written outside the transaction, when its commit fails. */
  lemma ExecuteStep(s: State, c: Command) returns (m: Move)
    requires Inv(s)
    ensures Executes(s, c, m)
  {
    var u := c.useCase;
    if u.DoCreateEscrow? || u.DoPayFromWallet? || u.DoFundEscrow? {
      m := FundingUseCase(s, u);
      PlainCommand(s, c, m);
      m := if c.commits then m else Stay;
    } else if OnEscrow(u) {
      m := EscrowUseCase(s, u);
      PlainCommand(s, c, m);
      m := if c.commits then m else Stay;
    } else if u.DoVerifyOrder? {
      OrderTellsIn(s, u.id);
      m := VerifyCommand(s, c);
    } else if u.DoHandleCallback? {
      OrderTellsIn(s, u.id);
      m := CallbackCommand(s, c);
    } else if OnOrder(u) {
      m := CreationCommand(s, c);
    } else if u.DoGrantCredit? {
      GrantKeysIn(s, u.uid);
      m := CreditCommand(s, c);
    } else if u.DoReverseCreditGrant? {
      GrantKeysIn(s, u.id);
      m := ReversalCommand(s, c);
    } else {
      m := PayoutUseCase(s, u);
      PlainCommand(s, c, m);
      m := if c.commits then m else Stay;
    }
  }

  // ---- every run -------------------------------------------------------------------------------

  lemma SerialKept(s: State, m: Move)
    requires Serial(s) && SerialMove(s, m)
    ensures Serial(Apply(s, m))
  {}

  lemma GoodKept(s: State, m: Move)
    requires Good(s) && SerialMove(s, m)
    ensures Good(Apply(s, m))
  {
    MoveKeeps(s, m);
    SerialKept(s, m);
  }

  /** Every state that any run of use cases can reach is good. */
  lemma {:induction false} RunGood(cs: seq<Command>)
    ensures Good(Run(EMPTY, cs))
  {
    if cs == [] {
      EmptyInv();
    } else {
      var before := cs[..|cs| - 1];
      RunGood(before);
      var m := ExecuteStep(Run(EMPTY, before), cs[|cs| - 1]);
      GoodKept(Run(EMPTY, before), m);
    }
  }

  /** The states that some run of use cases, in any order and with any arguments, ends in. */
  ghost predicate Reachable(s: State) {
    exists cs :: s == Run(EMPTY, cs)
  }

  lemma ReachableGood(s: State)
    requires Reachable(s)
    ensures Good(s)
  {
    var cs :| s == Run(EMPTY, cs);
    RunGood(cs);
  }

  lemma ReachableNext(s: State, c: Command)
    requires Reachable(s)
    ensures Reachable(Execute(s, c).state)
  {
    var cs :| s == Run(EMPTY, cs);
    assert (cs + [c])[..|cs|] == cs;
    assert Execute(s, c).state == Run(EMPTY, cs + [c]);
  }
}
