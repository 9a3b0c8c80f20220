/** What the use cases of payment orders decide and leave behind: creating, verifying, failing, and the provider's callback. */
module OrderOutcomes {
  import opened Results
  import opened Int64
  import opened Accounts
  import opened Refs
  import opened Ledger
  import opened Postings
  import opened Domain
  import opened Machine
  import opened Effects
  import opened Moves
  import opened Steps
  import opened Guarantees
  import opened Success
  import opened EscrowOutcomes

  // ---- ids -------------------------------------------------------------------------------------

  /** No escrow and no order has an empty id. */
  predicate Named(s: State) {
    "" !in s.escrows && "" !in s.orders
  }

  lemma EscrowNamed(s: State, u: UseCase)
    requires Named(s) && OnEscrow(u)
    ensures Named(Perform(s, u).state)
  {}

  lemma VerifyNamed(s: State, id: string, purpose: Option<Purpose>, reply: Option<int64>, commits: bool)
    requires Named(s)
    ensures Named(VerifyOrder(s, id, purpose, reply, commits).state)
  {}

  lemma FailNamed(s: State, id: string, updates: bool)
    requires Named(s)
    ensures Named(FailPaymentOrder(s, id, updates).state)
  {}

  lemma CallbackNamed(s: State, id: string, other: string, success: bool, reply: Option<int64>, commits: bool, updates: bool)
    requires Named(s)
    ensures Named(HandleCallback(s, id, other, success, reply, commits, updates).state)
  {
    VerifyNamed(s, id, None, reply, commits);
    FailNamed(VerifyOrder(s, id, None, reply, commits).state, other, updates);
    FailNamed(s, other, updates);
  }

  lemma CreationNamed(s: State, c: Command)
    requires Named(s) && (c.useCase.DoCreatePaymentOrder? || c.useCase.DoCreateWalletTopupOrder?)
    ensures Named(Execute(s, c).state)
  {}

  lemma ReportNamed(s: State, c: Command)
    requires Named(s) && (c.useCase.DoVerifyOrder? || c.useCase.DoHandleCallback?)
    ensures Named(Execute(s, c).state)
  {
    var u := c.useCase;
    if u.DoVerifyOrder? {
      VerifyNamed(s, u.id, u.purpose, u.reply, c.commits);
    } else {
      CallbackNamed(s, u.id, u.other, u.success, u.reply, c.commits, u.updates);
    }
  }

  lemma OthersNamed(s: State, u: UseCase)
    requires Named(s) && !OnEscrow(u) && !OnOrder(u)
    ensures Named(Perform(s, u).state)
  {}

  lemma {:induction false} RunNamed(cs: seq<Command>)
    ensures Named(Run(EMPTY, cs))
  {
    if cs != [] {
      var s, c := Run(EMPTY, cs[..|cs| - 1]), cs[|cs| - 1];
      RunNamed(cs[..|cs| - 1]);
      if c.useCase.DoVerifyOrder? || c.useCase.DoHandleCallback? {
        ReportNamed(s, c);
      } else if OnOrder(c.useCase) {
        CreationNamed(s, c);
      } else if OnEscrow(c.useCase) {
        EscrowNamed(s, c.useCase);
      } else {
        OthersNamed(s, c.useCase);
      }
    }
  }

  /** An order has an id, and a shipment order names an escrow that exists and has an id too. */
  lemma OrderHasIds(s: State, id: string)
    requires Reachable(s) && id in s.orders
    ensures id != "" && s.orders[id].amount > 0
    ensures s.orders[id].purpose == Shipment ==>
              && s.orders[id].shipmentId != "" && s.orders[id].shipmentId in s.escrows
              && s.escrows[s.orders[id].shipmentId].amount == s.orders[id].amount
              && s.escrows[s.orders[id].shipmentId].payer == s.orders[id].payer
  {
    var cs :| s == Run(EMPTY, cs);
    RunNamed(cs);
    ReachableGood(s);
    assert OrderOk(s, id, s.orders[id]);
  }

  // ---- creating an order -----------------------------------------------------------------------

  /** The escrow awaits this payer's payment of this amount, which is the agreed price if there is one. */
  predicate Orderable(s: State, ship: string, payer: string, amount: int, agreedPrice: int) {
    && ship != "" && payer != "" && amount > 0 && (agreedPrice <= 0 || agreedPrice == amount)
    && ship in s.escrows && s.escrows[ship].status == Created
    && s.escrows[ship].payer == payer && s.escrows[ship].amount == amount
  }

  /** The row o was inserted, and then updated by what the provider answered if the second statement worked. */
  predicate Placed(s: State, d: Done<OrderRow>, id: string, o: OrderRow, track: Option<string>, updates: bool) {
    if track.Some? && updates
    then d == Done(s.(orders := s.orders[id := o.(authority := track.value)]), Ok(o.(authority := track.value)))
    else
      && d.result == Err(if track.None? then ProviderRequestFailed else CommitFailed)
      && d.state == s.(orders := s.orders[id := if updates then o.(status := OrderFailed) else o])
  }

  /** An order is accepted exactly when its escrow awaits it; it is then PENDING under the provider's authority, or FAILED
      when the provider refuses, or PENDING without an authority when the second statement fails. Nothing else changes. */
  lemma PaymentOrderPlaced(s: State, id: Uuid, ship: string, payer: string, amount: int64, successUrl: string,
                           failureUrl: string, agreedPrice: int64, track: Option<string>, inserts: bool, updates: bool)
    ensures var d := CreatePaymentOrder(s, id, ship, payer, amount, successUrl, failureUrl, agreedPrice, track, inserts, updates);
            if Orderable(s, ship, payer, amount, agreedPrice) && successUrl != "" && failureUrl != ""
               && id !in s.orders && inserts
            then Placed(s, d, id, OrderRow(ship, payer, Shipment, amount, Pending, ""), track, updates)
            else d == Refuse(s,
              if ship == "" || payer == "" || amount <= 0 || successUrl == "" || failureUrl == "" then PaymentInvalidInput
              else if Orderable(s, ship, payer, amount, agreedPrice) then (if id in s.orders then DuplicateId else CommitFailed)
              else if agreedPrice > 0 && agreedPrice != amount then AmountMismatch
              else if ship !in s.escrows then EscrowNotFound
              else if s.escrows[ship].status != Created then EscrowNotReady
              else if s.escrows[ship].payer != payer then PayerMismatch else AmountMismatch)
  {}

  /** The same for topping up a wallet, which any user may order. */
  lemma TopupOrderPlaced(s: State, id: Uuid, user: string, amount: int64, successUrl: string, failureUrl: string,
                         track: Option<string>, inserts: bool, updates: bool)
    ensures var d := CreateWalletTopupOrder(s, id, user, amount, successUrl, failureUrl, track, inserts, updates);
            if user != "" && amount > 0 && successUrl != "" && failureUrl != "" && id !in s.orders && inserts
            then Placed(s, d, id, OrderRow("", user, TopUp, amount, Pending, ""), track, updates)
            else d == Refuse(s,
              if user == "" || amount <= 0 || successUrl == "" || failureUrl == "" then PaymentInvalidInput
              else if id in s.orders then DuplicateId else CommitFailed)
  {}

  // ---- confirming an order ---------------------------------------------------------------------

  predicate AwaitsMoney(s: State, ship: string) {
    ship in s.escrows && s.escrows[ship].status == Created
  }

  /** The money of a pending order can be posted: a topup's always, a shipment's while its escrow is CREATED and the keys of
      both legs are free. */
  predicate Creditable(s: State, id: string)
    requires id in s.orders
  {
    var ship := s.orders[id].shipmentId;
    s.orders[id].purpose == Shipment ==>
      && AwaitsMoney(s, ship)
      && (PspToWallet, PspWalletRef(ship, id)) !in Keys(s.log)
      && (WalletToEscrow, WalletEscrowRef(ship, id)) !in Keys(s.log)
  }

  /** While shipment ids are free of colons the keys always are. */
  lemma CreditableIff(s: State, id: string)
    requires Reachable(s) && id in s.orders && (s.orders[id].purpose == Shipment ==> ColonFree(s))
    ensures Creditable(s, id) <==>
            s.orders[id].purpose == TopUp || AwaitsMoney(s, s.orders[id].shipmentId)
  {
    var ship := s.orders[id].shipmentId;
    if s.orders[id].purpose == Shipment && AwaitsMoney(s, ship) {
      FundKeysFree(s, ship, id);
    }
  }

  /** The account that the money of an order goes to. */
  function Payee(o: OrderRow): Account {
    if o.purpose == TopUp then Wallet(o.payer) else Escrow(o.shipmentId)
  }

  function JournalsOf(id: string, o: OrderRow): seq<Journal> {
    if o.purpose == TopUp then [TopupJournal(id, o.payer, o.amount)]
    else [PspLeg(o.shipmentId, id, o.payer, o.amount), EscrowLeg(o.shipmentId, id, o.payer, o.amount)]
  }

  /** The order is CONFIRMED, its journals are posted, its amount has gone from PSP clearing to the payer's wallet or the
      escrow, which is then FUNDED by it, and nothing else has changed. */
  ghost predicate ConfirmedBy(s: State, d: Done<OrderRow>, id: string)
    requires id in s.orders
  {
    var o, t := s.orders[id], d.state;
    && d.result == Ok(o.(status := Confirmed))
    && t == State(s.log + JournalsOf(id, o), t.escrows, s.orders[id := o.(status := Confirmed)], s.withdrawals, s.grants,
                  s.verifyEvents + {id})
    && (if o.purpose == TopUp then t.escrows == s.escrows
        else o.shipmentId in s.escrows
             && t.escrows == s.escrows[o.shipmentId := s.escrows[o.shipmentId].(status := Funded, paymentOrderId := id, source := FromPsp)])
    && (forall a :: Net(t.log, Of(a)) == Net(s.log, Of(a)) +
          if a == PspClearing then -o.amount else if a == Payee(o) then o.amount else 0)
  }

  lemma TopupMoves(log: Log, id: string, o: OrderRow, a: Account)
    requires o.purpose == TopUp && o.amount > 0
    ensures Net(log + JournalsOf(id, o), Of(a)) == Net(log, Of(a)) +
              if a == PspClearing then -o.amount else if a == Payee(o) then o.amount else 0
  {
    NetAt(log, TopupJournal(id, o.payer, o.amount), Of(a));
    TransferSound(WalletTopup, TopupRef(id), PspClearing, Wallet(o.payer), o.amount);
  }

  lemma OrderMoves(log: Log, id: string, o: OrderRow)
    requires o.amount > 0
    ensures forall a :: Net(log + JournalsOf(id, o), Of(a)) == Net(log, Of(a)) +
              if a == PspClearing then -o.amount else if a == Payee(o) then o.amount else 0
  {
    forall a ensures Net(log + JournalsOf(id, o), Of(a)) == Net(log, Of(a)) +
                       if a == PspClearing then -o.amount else if a == Payee(o) then o.amount else 0 {
      if o.purpose == TopUp {
        TopupMoves(log, id, o, a);
      } else {
        FundingMoves(log, o.shipmentId, id, o.payer, o.amount, a);
      }
    }
  }

  lemma UnverifiedYet(s: State, id: string)
    requires Reachable(s) && id in s.orders && s.orders[id].status == Pending
    ensures id !in s.verifyEvents
    ensures s.orders[id].purpose == TopUp ==> (WalletTopup, TopupRef(id)) !in Keys(s.log)
  {
    ReachableGood(s);
    assert TopupKey(s, id);
  }

  lemma TopupConfirms(s: State, id: string)
    requires Reachable(s) && id in s.orders && s.orders[id].status == Pending && s.orders[id].purpose == TopUp
    ensures ConfirmedBy(s, ConfirmOrder(s, id), id)
  {
    var o := s.orders[id];
    OrderHasIds(s, id);
    UnverifiedYet(s, id);
    TransferSound(WalletTopup, TopupRef(id), PspClearing, Wallet(o.payer), o.amount);
    OrderMoves(s.log, id, o);
  }

  lemma ShipmentConfirms(s: State, id: string)
    requires Reachable(s) && id in s.orders && s.orders[id].status == Pending && s.orders[id].purpose == Shipment
    ensures if Creditable(s, id) then ConfirmedBy(s, ConfirmOrder(s, id), id)
            else ConfirmOrder(s, id) ==
                 Refuse(s, if AwaitsMoney(s, s.orders[id].shipmentId) then DuplicateJournal else InvalidTransition)
  {
    var o := s.orders[id];
    OrderHasIds(s, id);
    UnverifiedYet(s, id);
    FundIff(s, o.shipmentId, id);
    if Creditable(s, id) {
      FundedIs(s, o.shipmentId, id);
      OrderMoves(s.log, id, o);
    }
  }

  /** A pending order is confirmed exactly when it is verified for its purpose and amount, its money can be posted, and the
      transaction commits; otherwise verifying it changes nothing. */
  lemma VerifyDecides(s: State, id: string, purpose: Option<Purpose>, reply: Option<int64>, commits: bool)
    requires Reachable(s) && id in s.orders && s.orders[id].status == Pending
    ensures var d := VerifyOrder(s, id, purpose, reply, commits);
            if purpose in {None, Some(s.orders[id].purpose)} && reply == Some(s.orders[id].amount) && commits && Creditable(s, id)
            then ConfirmedBy(s, d, id)
            else d == Refuse(s,
              if purpose !in {None, Some(s.orders[id].purpose)} then InvalidPurpose
              else if reply == None then ProviderVerifyFailed
              else if reply != Some(s.orders[id].amount) then AmountMismatch
              else if Creditable(s, id) then CommitFailed
              else if AwaitsMoney(s, s.orders[id].shipmentId) then DuplicateJournal
              else InvalidTransition)
  {
    OrderHasIds(s, id);
    if s.orders[id].purpose == TopUp {
      TopupConfirms(s, id);
    } else {
      ShipmentConfirms(s, id);
    }
  }

  // ---- failing an order and the callback -------------------------------------------------------

  /** Failing an order writes FAILED unless it is CONFIRMED, moves no money, and touches no other row. */
  lemma FailDecides(s: State, id: string, updates: bool)
    ensures var d := FailPaymentOrder(s, id, updates);
            if id !in s.orders then d == Refuse(s, OrderNotFound)
            else if s.orders[id].status == Confirmed then d == Done(s, Ok(s.orders[id]))
            else if !updates then d == Refuse(s, CommitFailed)
            else d == Done(s.(orders := s.orders[id := s.orders[id].(status := OrderFailed)]), Ok(s.orders[id].(status := OrderFailed)))
  {}

  /** The order is FAILED now, unless it was CONFIRMED or its update failed, and nothing else has changed. */
  predicate FailedAt(s: State, d: Done<OrderRow>, id: string, updates: bool) {
    if id in s.orders && s.orders[id].status != Confirmed && updates
    then d == Done(s.(orders := s.orders[id := s.orders[id].(status := OrderFailed)]), Ok(s.orders[id].(status := OrderFailed)))
    else d.state == s && (d.result.Ok? <==> id in s.orders && s.orders[id].status == Confirmed)
  }

  /** What the provider's report does to a pending order. Reported as a success, it is confirmed exactly when the provider then
      verifies its amount, its money can be posted and the transaction commits. Reported as a failure, or not confirmed, it is
      failed (or the other row that its authority finds then), and no money moves, whatever the provider would have said. */
  lemma CallbackDecides(s: State, id: string, other: string, success: bool, reply: Option<int64>, commits: bool, updates: bool)
    requires Reachable(s) && id in s.orders && s.orders[id].status == Pending
    ensures var d := HandleCallback(s, id, other, success, reply, commits, updates);
            if success && reply == Some(s.orders[id].amount) && commits && Creditable(s, id)
            then ConfirmedBy(s, d, id)
            else FailedAt(s, d, other, updates)
  {
    VerifyDecides(s, id, None, reply, commits);
  }

  /** A callback for an order that is no longer pending changes nothing: it is answered with the row it has, or with an error
      when a FAILED one cannot be written again. */
  lemma CallbackRepeats(s: State, id: string, success: bool, reply: Option<int64>, commits: bool, updates: bool)
    requires id in s.orders && s.orders[id].status != Pending
    ensures var d := HandleCallback(s, id, id, success, reply, commits, updates);
            d.state == s && (if s.orders[id].status == Confirmed || updates then d.result == Ok(s.orders[id]) else d.result.Err?)
  {
    var d := FailPaymentOrder(s, id, updates);
    if s.orders[id].status == OrderFailed {
      assert s.orders[id := s.orders[id].(status := OrderFailed)] == s.orders;
    }
  }

  lemma CreationPlaces(s: State, c: Command)
    requires c.useCase.DoCreatePaymentOrder? && Execute(s, c).result.Ok?
    ensures var u, t := c.useCase, Execute(s, c).state;
            && Orderable(s, u.ship, u.payer, u.amount, u.agreedPrice) && u.track.Some?
            && t == s.(orders := s.orders[u.uid := OrderRow(u.ship, u.payer, Shipment, u.amount, Pending, u.track.value)])
  {
    var u := c.useCase;
    PaymentOrderPlaced(s, u.uid, u.ship, u.payer, u.amount, u.successUrl, u.failureUrl, u.agreedPrice, u.track, c.commits, u.updates);
  }

  /** From order to escrow: while shipment ids are free of colons, an order that is accepted and that the provider then reports
      and verifies for its amount funds its escrow, which holds the amount afterwards. */
  lemma OrderFundsEscrow(s: State, c: Command, id: string, updates: bool)
    requires Reachable(s) && ColonFree(s) && c.useCase.DoCreatePaymentOrder? && c.useCase.uid == id && Execute(s, c).result.Ok?
    ensures var amount, ship, t := c.useCase.amount, c.useCase.ship, Execute(s, c).state;
            var d := HandleCallback(t, id, id, true, Some(amount), true, updates);
            && d.result.Ok? && d.result.value.status == Confirmed
            && ship in d.state.escrows && d.state.escrows[ship].status == Funded && d.state.escrows[ship].paymentOrderId == id
            && Net(d.state.log, Of(Escrow(ship))) == amount
  {
    var u, t := c.useCase, Execute(s, c).state;
    CreationPlaces(s, c);
    ReachableNext(s, c);
    CreditableIff(t, id);
    CallbackDecides(t, id, id, true, Some(u.amount), true, updates);
    StatusFixesBalance(t, u.ship);
  }
}
