/** Safety of whole runs: statuses, overdrafts, confirmed orders, withdrawals and grants. */
module Guarantees {
  import opened Results
  import opened Int64
  import opened Accounts
  import opened Refs
  import opened Ledger
  import opened Postings
  import opened Domain
  import opened Machine
  import opened Story
  import opened Moves
  import opened Steps

  // ---- escrow status and balance ---------------------------------------------------------------

  /** What each status says the escrow account holds; LOCKED says nothing can be in it. */
  predicate StatusFits(status: EscrowStatus, amount: int, balance: int) {
    match status
    case Created => balance == 0
    case Funded => balance == amount
    case DisputeWindow => balance == amount
    case Frozen => balance == amount
    case PartiallyRefunded => 0 < balance < amount
    case Refunded => balance == 0
    case Released => balance == 0
    case Locked => false
  }

  /** The status of an escrow fixes its ledger balance, no escrow is ever LOCKED, and the promo counter lies
      between zero and the balance until the escrow is released. */
  lemma StatusFixesBalance(s: State, ship: string)
    requires Reachable(s)
    ensures var balance := Net(s.log, Of(Escrow(ship)));
            if ship in s.escrows
            then 0 < s.escrows[ship].amount <= MAX
                 && StatusFits(s.escrows[ship].status, s.escrows[ship].amount, balance)
                 && 0 <= s.escrows[ship].promoCreditFunded
                 && (s.escrows[ship].status != Released ==> s.escrows[ship].promoCreditFunded <= balance)
            else balance == 0
  {
    ReachableGood(s);
    assert EscrowTells(s, ship);
  }

  /** The balance of an escrow can always be read: neither sum ever exceeds an int64. */
  lemma EscrowReadable(s: State, ship: string)
    requires Reachable(s)
    ensures Balance(s.log, Of(Escrow(ship))) == Ok(Net(s.log, Of(Escrow(ship))))
  {
    ReachableGood(s);
    assert EscrowTells(s, ship);
  }

  // ---- no overdraft ----------------------------------------------------------------------------

  lemma {:induction false} SolventPrefix(log: Log, n: nat)
    requires Solvent(log) && n <= |log|
    ensures Solvent(log[..n])
    decreases |log|
  {
    if n < |log| {
      SolventPrefix(log[..|log| - 1], n);
      assert log[..|log| - 1][..n] == log[..n];
    } else {
      assert log[..n] == log;
    }
  }

  /** After every prefix of the journal log, between the two legs of a funding or refund too, no wallet and
      no escrow is overdrawn. */
  lemma NoOverdraft(s: State, n: nat, a: Account)
    requires Reachable(s) && n <= |s.log| && (a.Wallet? || a.Escrow?)
    ensures Net(s.log[..n], Of(a)) >= 0
  {
    ReachableGood(s);
    SolventPrefix(s.log, n);
  }

  // ---- confirmed orders ------------------------------------------------------------------------

  /** A CONFIRMED shipment order is the payment of its escrow, which it matches in payer and amount, and
      both its journals are posted. */
  lemma ConfirmedOrderPaid(s: State, id: string)
    requires Reachable(s) && id in s.orders && s.orders[id].purpose == Shipment && s.orders[id].status == Confirmed
    ensures var o := s.orders[id];
            && o.shipmentId in s.escrows
            && s.escrows[o.shipmentId].source == FromPsp && s.escrows[o.shipmentId].paymentOrderId == id
            && s.escrows[o.shipmentId].amount == o.amount && s.escrows[o.shipmentId].payer == o.payer
            && PspLeg(o.shipmentId, id, o.payer, o.amount) in s.log
            && EscrowLeg(o.shipmentId, id, o.payer, o.amount) in s.log
  {
    ReachableGood(s);
    assert OrderOk(s, id, s.orders[id]);
    assert FundingRecorded(s.log, s.orders[id].shipmentId, s.escrows[s.orders[id].shipmentId]);
  }

  /** A shipment never has two confirmed orders. */
  lemma OneConfirmedPerShipment(s: State, id: string, other: string)
    requires Reachable(s) && id in s.orders && other in s.orders
    requires s.orders[id].purpose == Shipment && s.orders[other].purpose == Shipment
    requires s.orders[id].status == Confirmed && s.orders[other].status == Confirmed
    requires s.orders[id].shipmentId == s.orders[other].shipmentId
    ensures id == other
  {
    ConfirmedOrderPaid(s, id);
    ConfirmedOrderPaid(s, other);
  }

  /** A topup is CONFIRMED exactly when its journal is in the log. */
  lemma ConfirmedTopupPosted(s: State, id: string)
    requires Reachable(s) && id in s.orders && s.orders[id].purpose == TopUp
    ensures s.orders[id].status == Confirmed <==> TopupJournal(id, s.orders[id].payer, s.orders[id].amount) in s.log
  {
    ReachableGood(s);
    assert OrderOk(s, id, s.orders[id]) && TopupKey(s, id);
    var j := TopupJournal(id, s.orders[id].payer, s.orders[id].amount);
    if j in s.log {
      KeysAreKeys(s.log, j.refType, j.refId);
    }
  }

  // ---- withdrawals and grants ------------------------------------------------------------------

  /** Every withdrawal has exactly one reserve journal, for its amount, and one reversal exactly when it has failed
      or was rejected, never both; an id without a withdrawal has none of the three. */
  lemma WithdrawalJournals(s: State, id: string)
    requires Reachable(s)
    ensures id in s.withdrawals ==>
              var w := s.withdrawals[id];
              && OnlyOne(s.log, ReserveJournal(id, w.user, w.amount))
              && (if w.status == WFailed then OnlyOne(s.log, FailReversal(id, w.user, w.amount))
                  else Never(s.log, WithdrawalRejectReversal, FailRef(id)))
              && (if w.status == Rejected then OnlyOne(s.log, RejectReversal(id, w.user, w.amount))
                  else Never(s.log, WithdrawalRejectReversal, RejectRef(id)))
    ensures id !in s.withdrawals ==>
              Never(s.log, WithdrawalReserve, ReserveRef(id))
              && Never(s.log, WithdrawalRejectReversal, FailRef(id)) && Never(s.log, WithdrawalRejectReversal, RejectRef(id))
  {
    ReachableGood(s);
    assert WithdrawalKeys(s, id);
    if id in s.withdrawals {
      var w := s.withdrawals[id];
      assert WithdrawalRecorded(s.log, id, w);
      OnePosition(s.log, ReserveJournal(id, w.user, w.amount));
      if w.status == WFailed {
        OnePosition(s.log, FailReversal(id, w.user, w.amount));
      } else {
        NoPosition(s.log, WithdrawalRejectReversal, FailRef(id));
      }
      if w.status == Rejected {
        OnePosition(s.log, RejectReversal(id, w.user, w.amount));
      } else {
        NoPosition(s.log, WithdrawalRejectReversal, RejectRef(id));
      }
    } else {
      NoPosition(s.log, WithdrawalReserve, ReserveRef(id));
      NoPosition(s.log, WithdrawalRejectReversal, FailRef(id));
      NoPosition(s.log, WithdrawalRejectReversal, RejectRef(id));
    }
  }

  /** No journal of a grant is posted twice or for another user or amount, and none without the row; a reversal is posted only
      for a REVERSED grant. */
  lemma GrantJournals(s: State, id: string)
    requires Reachable(s) && id in s.grants
    ensures var g := s.grants[id];
            && (if GrantPosted(s.log, id) then OnlyOne(s.log, GrantJournal(id, g.user, g.amount))
                else Never(s.log, PromoCreditGrant, id))
            && (if ReversalPosted(s.log, id) then g.status == Reversed && OnlyOne(s.log, ReverseJournal(id, g.user, g.amount))
                else Never(s.log, PromoCreditReverse, ReverseRef(id)))
  {
    ReachableGood(s);
    assert GrantKeys(s, id) && GrantRecorded(s.log, id, s.grants[id]);
    var g := s.grants[id];
    if GrantPosted(s.log, id) {
      OnePosition(s.log, GrantJournal(id, g.user, g.amount));
    } else {
      NoPosition(s.log, PromoCreditGrant, id);
    }
    if ReversalPosted(s.log, id) {
      OnePosition(s.log, ReverseJournal(id, g.user, g.amount));
    } else {
      NoPosition(s.log, PromoCreditReverse, ReverseRef(id));
    }
  }

  // ---- all or nothing --------------------------------------------------------------------------

  /** A use case that fails, at whatever point and a failed commit included, leaves ledger, escrows, withdrawals and verify
      events exactly as they were. Orders too, but for a new one that the provider refuses or whose second statement fails;
      grants too, but for a grant or reversal whose commit fails, whose row stays. */
  lemma AllOrNothing(s: State, c: Command)
    requires Reachable(s) && Execute(s, c).result.Err?
    ensures !LeavesRow(c) ==> Execute(s, c).state == s
    ensures Execute(s, c).state.(orders := s.orders, grants := s.grants) == s
    ensures !LeavesOrder(c.useCase) ==> Execute(s, c).state.orders == s.orders
    ensures c.commits || !OnGrant(c.useCase) ==> Execute(s, c).state.grants == s.grants
  {
    ReachableGood(s);
    var m := ExecuteStep(s, c);
    ResidueOnly(s, c, m);
  }

  lemma ResidueOnly(s: State, c: Command, m: Move)
    requires Legal(s, m) && Residue(c, m)
    ensures Apply(s, m).(orders := s.orders, grants := s.grants) == s
    ensures !LeavesRow(c) ==> Apply(s, m) == s
    ensures !LeavesOrder(c.useCase) ==> Apply(s, m).orders == s.orders
    ensures c.commits || !OnGrant(c.useCase) ==> Apply(s, m).grants == s.grants
  {
    assert s.log + [] == s.log;
  }

  /** The journal log only ever grows. */
  lemma LogGrows(s: State, c: Command)
    requires Reachable(s)
    ensures s.log <= Execute(s, c).state.log
  {
    ReachableGood(s);
    var m := ExecuteStep(s, c);
  }

  // ---- lifecycles ------------------------------------------------------------------------------

  predicate EscrowEdge(from: EscrowStatus, to: EscrowStatus) {
    match from
    case Created => to == Funded
    case Funded => to in {DisputeWindow, PartiallyRefunded, Refunded}
    case DisputeWindow => to in {Frozen, Released, PartiallyRefunded, Refunded}
    case Frozen => to in {PartiallyRefunded, Refunded}
    case PartiallyRefunded => to in {PartiallyRefunded, Released, Refunded}
    case Locked => to == Frozen
    case _ => false
  }

  lemma EscrowMoveEdge(s: State, m: Move, ship: string)
    requires Legal(s, m) && ship in s.escrows
    ensures ship in EscrowsAfter(s, m)
    ensures var e, f := s.escrows[ship], EscrowsAfter(s, m)[ship];
            && f.payer == e.payer && f.carrier == e.carrier && f.amount == e.amount
            && (f == e || EscrowEdge(e.status, f.status))
  {}

  /** An escrow moves only along the edges of its lifecycle, and its parties and amount never change. */
  lemma EscrowLifecycle(s: State, c: Command, ship: string)
    requires Reachable(s) && ship in s.escrows
    ensures ship in Execute(s, c).state.escrows
    ensures var e, f := s.escrows[ship], Execute(s, c).state.escrows[ship];
            && f.payer == e.payer && f.carrier == e.carrier && f.amount == e.amount
            && (f == e || EscrowEdge(e.status, f.status))
  {
    ReachableGood(s);
    var m := ExecuteStep(s, c);
    EscrowMoveEdge(s, m, ship);
  }

  predicate WithdrawalEdge(from: WithdrawalStatus, to: WithdrawalStatus) {
    match from
    case WPending => to in {Approved, Completed, Rejected}
    case Approved => to in {SentToBank, WFailed}
    case SentToBank => to in {Settled, WFailed}
    case _ => false
  }

  lemma WithdrawalMoveEdge(s: State, m: Move, id: string)
    requires Legal(s, m) && id in s.withdrawals
    ensures id in WithdrawalsAfter(s, m)
    ensures var w, v := s.withdrawals[id], WithdrawalsAfter(s, m)[id];
            && v.user == w.user && v.amount == w.amount
            && (v == w || WithdrawalEdge(w.status, v.status))
  {}

  /** A withdrawal moves only along the edges of its lifecycle: settled, completed, failed and rejected are final. */
  lemma WithdrawalLifecycle(s: State, c: Command, id: string)
    requires Reachable(s) && id in s.withdrawals
    ensures id in Execute(s, c).state.withdrawals
    ensures var w, v := s.withdrawals[id], Execute(s, c).state.withdrawals[id];
            && v.user == w.user && v.amount == w.amount
            && (v == w || WithdrawalEdge(w.status, v.status))
  {
    ReachableGood(s);
    var m := ExecuteStep(s, c);
    WithdrawalMoveEdge(s, m, id);
  }

  /** In serial runs CONFIRMED and FAILED orders are final. */
  lemma OrderLifecycle(s: State, c: Command, id: string)
    requires Reachable(s) && id in s.orders && s.orders[id].status != Pending
    ensures id in Execute(s, c).state.orders && Execute(s, c).state.orders[id] == s.orders[id]
  {
    match c.useCase
    case DoVerifyOrder(called, purpose, reply) => VerifyKeeps(s, id, called, purpose, reply, c.commits);
    case DoHandleCallback(called, other, success, reply, updates) =>
      CallbackKeeps(s, id, called, other, success, reply, c.commits, updates);
    case _ => OtherCommandsKeep(s, c, id);
  }

  lemma ConfirmKeeps(s: State, id: string, called: string)
    requires id in s.orders && (called != id || s.orders[id].status == Confirmed)
    ensures var t := ConfirmOrder(s, called).state;
            id in t.orders && t.orders[id] == s.orders[id]
  {}

  lemma VerifyKeeps(s: State, id: string, called: string, purpose: Option<Purpose>, reply: Option<int64>, commits: bool)
    requires id in s.orders && s.orders[id].status != Pending
    ensures var t := VerifyOrder(s, called, purpose, reply, commits).state;
            id in t.orders && t.orders[id] == s.orders[id]
  {
    if called != id || s.orders[id].status == Confirmed {
      ConfirmKeeps(s, id, called);
    }
  }

  lemma CallbackKeeps(s: State, id: string, called: string, other: string, success: bool, reply: Option<int64>, commits: bool,
                      updates: bool)
    requires id in s.orders && s.orders[id].status != Pending
    ensures var t := HandleCallback(s, called, other, success, reply, commits, updates).state;
            id in t.orders && t.orders[id] == s.orders[id]
  {
    VerifyKeeps(s, id, called, None, reply, commits);
  }

  lemma CreationKeeps(s: State, u: UseCase, id: string)
    requires (u.DoCreatePaymentOrder? || u.DoCreateWalletTopupOrder?) && id in s.orders
    ensures id in Perform(s, u).state.orders && Perform(s, u).state.orders[id] == s.orders[id]
  {}

  lemma EscrowsKeepOrders(s: State, u: UseCase)
    requires OnEscrow(u)
    ensures Perform(s, u).state.orders == s.orders
  {}

  lemma OthersKeep(s: State, u: UseCase)
    requires !OnOrder(u)
    ensures Perform(s, u).state.orders == s.orders
  {
    if OnEscrow(u) {
      EscrowsKeepOrders(s, u);
    }
  }

  lemma OtherCommandsKeep(s: State, c: Command, id: string)
    requires !c.useCase.DoVerifyOrder? && !c.useCase.DoHandleCallback? && id in s.orders
    ensures id in Execute(s, c).state.orders && Execute(s, c).state.orders[id] == s.orders[id]
  {
    if OnOrder(c.useCase) {
      CreationKeeps(s, c.useCase, id);
    } else {
      OthersKeep(s, c.useCase);
    }
  }
}
