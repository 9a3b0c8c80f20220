/** Interleaved payments: verifications and failures run in pieces, between one another and between all other use cases.

    A verification is a load, a question to the provider, and one transaction; a failure is a load and an update that
    writes by id, whatever the row has become. Each piece is atomic. */
module PaymentRaces {
  import opened Results
  import opened Int64
  import opened Accounts
  import opened Refs
  import opened Ledger
  import opened Postings
  import opened Domain
  import opened Machine
  import opened Moves
  import opened Bookkeeping
  import opened Steps

  /** How far one call has come, with the row it has loaded. */
  datatype Call =
    | Verifying(id: string, purpose: Option<Purpose>)
    | AskingProvider(id: string, loaded: OrderRow)
    | Confirming(id: string)
    | Failing(id: string)
    | Overwriting(id: string, loaded: OrderRow)
    | Ended

  datatype Race = Race(state: State, calls: seq<Call>)

  const START := Race(EMPTY, [])

  datatype Action =
    | Whole(command: Command)
    | NewVerify(id: string, purpose: Option<Purpose>)
    | NewFail(id: string)
    | Resume(call: nat, reply: Option<int64>, commits: bool)
    | Crash(call: nat)

  /** Load the row and look at it. */
  function LoadToVerify(s: State, id: string, purpose: Option<Purpose>): Call {
    if id !in s.orders then Ended
    else
      var o := s.orders[id];
      if purpose.Some? && o.purpose != purpose.value then Ended
      else if o.status == Confirmed || o.status == OrderFailed then Ended
      else AskingProvider(id, o)
  }

  function LoadToFail(s: State, id: string): Call {
    if id !in s.orders || s.orders[id].status == Confirmed then Ended else Overwriting(id, s.orders[id])
  }

  /** The update by id: it writes the status and authority of the row the call has in hand. */
  function Overwrite(s: State, id: string, loaded: OrderRow): State {
    if id !in s.orders then s
    else s.(orders := s.orders[id := s.orders[id].(status := OrderFailed, authority := loaded.authority)])
  }

  /** The next piece of one call; commits says whether the transaction of a verification is committed, or the
      update of a failure done. */
  function Piece(s: State, call: Call, reply: Option<int64>, commits: bool): (State, Call) {
    match call
    case Verifying(id, purpose) => (s, LoadToVerify(s, id, purpose))
    case AskingProvider(id, loaded) =>
      (s, if reply.None? || reply.value != loaded.amount then Ended else Confirming(id))
    case Confirming(id) => (Machine.Ended(s, ConfirmOrder(s, id), commits).state, Ended)
    case Failing(id) => (s, LoadToFail(s, id))
    case Overwriting(id, loaded) => (if commits then Overwrite(s, id, loaded) else s, Ended)
    case Ended => (s, Ended)
  }

  function Act(r: Race, a: Action): Race {
    match a
    case Whole(c) => r.(state := Execute(r.state, c).state)
    case NewVerify(id, purpose) => r.(calls := r.calls + [Verifying(id, purpose)])
    case NewFail(id) => r.(calls := r.calls + [Failing(id)])
    case Resume(i, reply, commits) =>
      if i >= |r.calls| then r
      else
        var (s, call) := Piece(r.state, r.calls[i], reply, commits);
        Race(s, r.calls[i := call])
    case Crash(i) => if i >= |r.calls| then r else r.(calls := r.calls[i := Ended])
  }

  function Interleave(r: Race, actions: seq<Action>): Race {
    if actions == [] then r else Act(Interleave(r, actions[..|actions| - 1]), actions[|actions| - 1])
  }

  // ---- the pieces of a whole call --------------------------------------------------------------

  /** Three pieces with nothing in between. */
  function Uninterrupted(s: State, call: Call, reply: Option<int64>, commits: bool): (State, Call) {
    var (first, second) := Piece(s, call, reply, commits);
    var (later, third) := Piece(first, second, reply, commits);
    Piece(later, third, reply, commits)
  }

  /** A verification that nothing interrupts is that of the money machine. */
  lemma VerifyIsPieces(s: State, id: string, purpose: Option<Purpose>, reply: Option<int64>, commits: bool)
    ensures Uninterrupted(s, Verifying(id, purpose), reply, commits) == (VerifyOrder(s, id, purpose, reply, commits).state, Ended)
  {}

  /** So is a failure. */
  lemma FailIsPieces(s: State, id: string, reply: Option<int64>, updates: bool)
    ensures Uninterrupted(s, Failing(id), reply, updates) == (FailPaymentOrder(s, id, updates).state, Ended)
  {}

  // ---- the invariant ---------------------------------------------------------------------------

  /** A row in the hands of a call is the row as it still is, but for its status. */
  ghost predicate HandOk(s: State, call: Call) {
    call.AskingProvider? || call.Overwriting? ==>
      call.id in s.orders && call.loaded == s.orders[call.id].(status := call.loaded.status)
  }

  ghost predicate RaceOk(r: Race) {
    Inv(r.state) && forall i :: 0 <= i < |r.calls| ==> HandOk(r.state, r.calls[i])
  }

  /** Nothing but the status of an order row ever changes. */
  lemma OrderPersists(s: State, m: Move, id: string)
    requires Legal(s, m) && id in s.orders
    ensures id in OrdersAfter(s, m) && OrdersAfter(s, m)[id] == s.orders[id].(status := OrdersAfter(s, m)[id].status)
  {}

  lemma HandKept(s: State, m: Move, call: Call)
    requires Legal(s, m) && HandOk(s, call)
    ensures HandOk(Apply(s, m), call)
  {
    if call.AskingProvider? || call.Overwriting? {
      OrderPersists(s, m, call.id);
    }
  }

  lemma EscrowTellsHere(s: State, id: string)
    requires Inv(s)
    ensures id in s.orders ==> EscrowTells(s, s.orders[id].shipmentId)
  {}

  /** Each piece of a call is a legal move, a stale overwrite included. */
  lemma PieceMoves(s: State, call: Call, reply: Option<int64>, commits: bool) returns (m: Move)
    requires Inv(s) && HandOk(s, call)
    ensures Legal(s, m) && Piece(s, call, reply, commits).0 == Apply(s, m)
  {
    StayStays(s);
    m := Stay;
    if call.Confirming? {
      EscrowTellsHere(s, call.id);
      m := ConfirmOrderStep(s, call.id);
      EndedStays(s, ConfirmOrder(s, call.id), m);
      m := if commits then m else Stay;
    } else if call.Overwriting? && commits {
      m := DropOrder(call.id);
      assert s.log + [] == s.log;
    }
  }

  lemma HandsKept(s: State, m: Move, calls: seq<Call>)
    requires Legal(s, m) && forall i :: 0 <= i < |calls| ==> HandOk(s, calls[i])
    ensures forall i :: 0 <= i < |calls| ==> HandOk(Apply(s, m), calls[i])
  {
    forall i | 0 <= i < |calls| ensures HandOk(Apply(s, m), calls[i]) {
      HandKept(s, m, calls[i]);
    }
  }

  /** The effect of every action on the state is one legal move. */
  lemma ActMoves(r: Race, a: Action) returns (m: Move)
    requires RaceOk(r)
    ensures Legal(r.state, m) && Act(r, a).state == Apply(r.state, m)
  {
    StayStays(r.state);
    m := Stay;
    match a
    case Whole(c) => m := ExecuteStep(r.state, c);
    case Resume(i, reply, commits) =>
      if i < |r.calls| {
        assert HandOk(r.state, r.calls[i]);
        m := PieceMoves(r.state, r.calls[i], reply, commits);
      }
    case _ =>
  }

  /** What the calls hold after an action they hold of the state before it. */
  lemma ActHands(r: Race, a: Action)
    requires RaceOk(r)
    ensures forall i :: 0 <= i < |Act(r, a).calls| ==> HandOk(r.state, Act(r, a).calls[i])
  {
    if a.Resume? && a.call < |r.calls| {
      assert HandOk(r.state, r.calls[a.call]);
      PieceHand(r.state, r.calls[a.call], a.reply, a.commits);
    }
  }

  lemma PieceHand(s: State, call: Call, reply: Option<int64>, commits: bool)
    requires HandOk(s, call)
    ensures HandOk(s, Piece(s, call, reply, commits).1)
  {}

  lemma ActKeeps(r: Race, a: Action)
    requires RaceOk(r)
    ensures RaceOk(Act(r, a))
  {
    ActHands(r, a);
    var m := ActMoves(r, a);
    MoveKeeps(r.state, m);
    HandsKept(r.state, m, Act(r, a).calls);
  }

  /** Every interleaving of any number of calls keeps the machine's invariant. */
  lemma {:induction false} InterleavingOk(actions: seq<Action>)
    ensures RaceOk(Interleave(START, actions))
  {
    if actions == [] {
      EmptyInv();
    } else {
      InterleavingOk(actions[..|actions| - 1]);
      ActKeeps(Interleave(START, actions[..|actions| - 1]), actions[|actions| - 1]);
    }
  }

  // ---- credits ---------------------------------------------------------------------------------

  /** In every interleaving a CONFIRMED order has its journals in the log, each exactly once: the topup, or both legs
      of the funding of an escrow that names the order as its payment. */
  lemma ConfirmedIsPosted(actions: seq<Action>, id: string)
    requires id in Interleave(START, actions).state.orders
    requires Interleave(START, actions).state.orders[id].status == Confirmed
    ensures var s := Interleave(START, actions).state;
            var o := s.orders[id];
            match o.purpose
            case TopUp => OnlyOne(s.log, TopupJournal(id, o.payer, o.amount))
            case Shipment =>
              && o.shipmentId in s.escrows && s.escrows[o.shipmentId].paymentOrderId == id
              && OnlyOne(s.log, PspLeg(o.shipmentId, id, o.payer, o.amount))
              && OnlyOne(s.log, EscrowLeg(o.shipmentId, id, o.payer, o.amount))
  {
    InterleavingOk(actions);
    var s := Interleave(START, actions).state;
    var o := s.orders[id];
    assert OrderOk(s, id, o);
    if o.purpose == TopUp {
      OnePosition(s.log, TopupJournal(id, o.payer, o.amount));
    } else {
      ShipmentCreditedOnce(actions, id);
    }
  }

  /** However many verifications of a topup interleave, it is credited once when one of them has gone through, and
      not at all before. */
  lemma CreditedAtMostOnce(actions: seq<Action>, id: string)
    requires id in Interleave(START, actions).state.orders
    requires Interleave(START, actions).state.orders[id].purpose == TopUp
    ensures var s := Interleave(START, actions).state;
            var o := s.orders[id];
            if id in s.verifyEvents then OnlyOne(s.log, TopupJournal(id, o.payer, o.amount))
            else Never(s.log, WalletTopup, TopupRef(id))
  {
    InterleavingOk(actions);
    var s := Interleave(START, actions).state;
    assert OrderOk(s, id, s.orders[id]) && TopupKey(s, id);
    if id in s.verifyEvents {
      OnePosition(s.log, TopupJournal(id, s.orders[id].payer, s.orders[id].amount));
    } else {
      NoPosition(s.log, WalletTopup, TopupRef(id));
    }
  }

  /** The same for a shipment order: once its verify event is recorded, both legs of its escrow's funding are posted, each
      exactly once, also when the order was overwritten to FAILED since. */
  lemma ShipmentCreditedOnce(actions: seq<Action>, id: string)
    requires id in Interleave(START, actions).state.orders && id in Interleave(START, actions).state.verifyEvents
    requires Interleave(START, actions).state.orders[id].purpose == Shipment
    ensures var s := Interleave(START, actions).state;
            var o := s.orders[id];
            && o.shipmentId in s.escrows && s.escrows[o.shipmentId].paymentOrderId == id
            && OnlyOne(s.log, PspLeg(o.shipmentId, id, o.payer, o.amount))
            && OnlyOne(s.log, EscrowLeg(o.shipmentId, id, o.payer, o.amount))
  {
    InterleavingOk(actions);
    var s := Interleave(START, actions).state;
    var o := s.orders[id];
    assert OrderOk(s, id, o) && FundingRecorded(s.log, o.shipmentId, s.escrows[o.shipmentId]);
    OnePosition(s.log, PspLeg(o.shipmentId, id, o.payer, o.amount));
    OnePosition(s.log, EscrowLeg(o.shipmentId, id, o.payer, o.amount));
  }

  /** Of all orders of one shipment, at most one is ever credited. */
  lemma OneCreditPerShipment(actions: seq<Action>, id: string, other: string)
    requires var s := Interleave(START, actions).state;
             && id in s.orders && other in s.orders && id in s.verifyEvents && other in s.verifyEvents
             && s.orders[id].purpose == Shipment && s.orders[other].purpose == Shipment
             && s.orders[id].shipmentId == s.orders[other].shipmentId
    ensures id == other
  {
    InterleavingOk(actions);
    var s := Interleave(START, actions).state;
    assert OrderOk(s, id, s.orders[id]) && OrderOk(s, other, s.orders[other]);
  }

  // ---- the lost confirmation -------------------------------------------------------------------

  /** The action is the overwriting half of a failure of this order. */
  predicate Overwrites(r: Race, a: Action, id: string) {
    a.Resume? && a.commits && a.call < |r.calls| && r.calls[a.call].Overwriting? && r.calls[a.call].id == id
  }

  lemma PieceConfirmed(s: State, call: Call, reply: Option<int64>, commits: bool, id: string)
    requires id in s.orders && s.orders[id].status == Confirmed
    ensures id in Piece(s, call, reply, commits).0.orders
    ensures Piece(s, call, reply, commits).0.orders[id].status == Confirmed <==> !(call.Overwriting? && call.id == id && commits)
  {}

  lemma WholeConfirmed(s: State, c: Command, id: string)
    requires Inv(s) && id in s.orders && s.orders[id].status == Confirmed
    ensures id in Execute(s, c).state.orders && Execute(s, c).state.orders[id].status == Confirmed
  {
    var m := ExecuteStep(s, c);
    OrderPersists(s, m, id);
  }

  /** A CONFIRMED order stays CONFIRMED through every action but one: a failure that had loaded it earlier writes over
      it. Nothing else loses a confirmation. */
  lemma ConfirmedUnlessOverwritten(r: Race, a: Action, id: string)
    requires RaceOk(r) && id in r.state.orders && r.state.orders[id].status == Confirmed
    ensures id in Act(r, a).state.orders
    ensures Act(r, a).state.orders[id].status == Confirmed <==> !Overwrites(r, a, id)
  {
    match a
    case Whole(c) => WholeConfirmed(r.state, c, id);
    case Resume(i, reply, commits) =>
      if i < |r.calls| {
        PieceConfirmed(r.state, r.calls[i], reply, commits, id);
      }
    case _ =>
  }

  lemma {:induction false} ContinuationOk(r: Race, actions: seq<Action>)
    requires RaceOk(r)
    ensures RaceOk(Interleave(r, actions))
  {
    if actions != [] {
      ContinuationOk(r, actions[..|actions| - 1]);
      ActKeeps(Interleave(r, actions[..|actions| - 1]), actions[|actions| - 1]);
    }
  }

  /** Some call holds the order as it was before it was confirmed and is about to write it back as FAILED. */
  predicate Parked(r: Race, id: string) {
    exists i :: 0 <= i < |r.calls| && r.calls[i].Overwriting? && r.calls[i].id == id
  }

  ghost predicate ConfirmedIn(r: Race, id: string) {
    id in r.state.orders && r.state.orders[id].status == Confirmed
  }

  /** A failure that loads a confirmed order ends, so none gets parked. */
  lemma NoneParks(r: Race, a: Action, id: string)
    requires ConfirmedIn(r, id) && !Parked(r, id)
    ensures !Parked(Act(r, a), id)
  {
    if a.Resume? && a.call < |r.calls| {
      assert !(r.calls[a.call].Overwriting? && r.calls[a.call].id == id);
    }
    forall i | 0 <= i < |r.calls| ensures !(r.calls[i].Overwriting? && r.calls[i].id == id) {}
  }

  lemma {:induction false} UnparkedStays(r: Race, actions: seq<Action>, id: string)
    requires RaceOk(r) && ConfirmedIn(r, id) && !Parked(r, id)
    ensures ConfirmedIn(Interleave(r, actions), id) && !Parked(Interleave(r, actions), id)
  {
    if actions != [] {
      var front, a := actions[..|actions| - 1], actions[|actions| - 1];
      var before := Interleave(r, front);
      UnparkedStays(r, front, id);
      ContinuationOk(r, front);
      ConfirmedUnlessOverwritten(before, a, id);
      NoneParks(before, a, id);
    }
  }

  lemma InterleaveOne(r: Race, a: Action)
    ensures Interleave(r, [a]) == Act(r, a)
  {
    assert [a][..0] == [];
  }

  /** So a CONFIRMED order stays CONFIRMED in every continuation exactly when no failure of it is parked between its load
      and its update. */
  lemma ConfirmedForGoodIff(r: Race, id: string)
    requires RaceOk(r) && ConfirmedIn(r, id)
    ensures (forall actions :: ConfirmedIn(Interleave(r, actions), id)) <==> !Parked(r, id)
  {
    if Parked(r, id) {
      var i :| 0 <= i < |r.calls| && r.calls[i].Overwriting? && r.calls[i].id == id;
      var a := Resume(i, None, true);
      InterleaveOne(r, a);
      ConfirmedUnlessOverwritten(r, a, id);
      assert !ConfirmedIn(Interleave(r, [a]), id);
    } else {
      forall actions ensures ConfirmedIn(Interleave(r, actions), id) {
        UnparkedStays(r, actions, id);
      }
    }
  }

  // ---- a credited order that has failed --------------------------------------------------------

  ghost predicate FailedAfterCredit(s: State, id: string) {
    id in s.orders && s.orders[id].status == OrderFailed && id in s.verifyEvents
  }

  lemma MoveKeepsFailed(s: State, m: Move, id: string)
    requires Legal(s, m) && FailedAfterCredit(s, id)
    ensures FailedAfterCredit(Apply(s, m), id)
  {}

  /** Once a credited order is FAILED no action confirms it again, a transaction that was already waiting included. */
  lemma FailedStays(r: Race, a: Action, id: string)
    requires RaceOk(r) && FailedAfterCredit(r.state, id)
    ensures FailedAfterCredit(Act(r, a).state, id)
  {
    var m := ActMoves(r, a);
    MoveKeepsFailed(r.state, m, id);
  }

  lemma {:induction false} FailedForGood(r: Race, actions: seq<Action>, id: string)
    requires RaceOk(r) && FailedAfterCredit(r.state, id)
    ensures FailedAfterCredit(Interleave(r, actions).state, id)
  {
    if actions != [] {
      FailedForGood(r, actions[..|actions| - 1], id);
      ContinuationOk(r, actions[..|actions| - 1]);
      FailedStays(Interleave(r, actions[..|actions| - 1]), actions[|actions| - 1], id);
    }
  }

  function AskMeanwhile(n: nat, id: string): seq<Action> {
    [NewFail(id), Resume(n, None, true)] + [NewVerify(id, None), Resume(n + 1, None, true)]
  }

  function ConfirmNow(n: nat, amount: int64): seq<Action> {
    [Resume(n, Some(amount), true), Resume(n, None, true)]
  }

  /** A failure loads the pending order, then a verification of it runs to its end. */
  function VerifiedMeanwhile(n: nat, id: string, amount: int64): seq<Action> {
    AskMeanwhile(n, id) + ConfirmNow(n + 1, amount)
  }

  lemma {:induction false} InterleaveMore(r: Race, first: seq<Action>, more: seq<Action>)
    ensures Interleave(r, first + more) == Interleave(Interleave(r, first), more)
  {
    if more == [] {
      assert first + more == first;
    } else {
      InterleaveMore(r, first, more[..|more| - 1]);
      assert (first + more)[..|first + more| - 1] == first + more[..|more| - 1];
    }
  }

  lemma Follow(r: Race, before: seq<Action>, a: Action)
    ensures Interleave(r, before + [a]) == Act(Interleave(r, before), a)
  {
    assert (before + [a])[..|before|] == before;
  }

  lemma LastResumed(r: Race, calls: seq<Call>, call: Call, reply: Option<int64>)
    requires r.calls == calls + [call]
    ensures var (s, next) := Piece(r.state, call, reply, true);
            Act(r, Resume(|calls|, reply, true)) == Race(s, calls + [next])
  {}

  lemma FailureParks(r: Race, id: string)
    requires id in r.state.orders && r.state.orders[id].status == Pending
    ensures Interleave(r, [NewFail(id), Resume(|r.calls|, None, true)]) ==
            Race(r.state, r.calls + [Overwriting(id, r.state.orders[id])])
  {
    Follow(r, [NewFail(id)], Resume(|r.calls|, None, true));
    InterleaveOne(r, NewFail(id));
    LastResumed(Act(r, NewFail(id)), r.calls, Failing(id), None);
    assert [NewFail(id)] + [Resume(|r.calls|, None, true)] == [NewFail(id), Resume(|r.calls|, None, true)];
  }

  lemma ProviderAsked(r: Race, id: string)
    requires id in r.state.orders && r.state.orders[id].status == Pending
    ensures Interleave(r, [NewVerify(id, None), Resume(|r.calls|, None, true)]) ==
            Race(r.state, r.calls + [AskingProvider(id, r.state.orders[id])])
  {
    Follow(r, [NewVerify(id, None)], Resume(|r.calls|, None, true));
    InterleaveOne(r, NewVerify(id, None));
    LastResumed(Act(r, NewVerify(id, None)), r.calls, Verifying(id, None), None);
    assert [NewVerify(id, None)] + [Resume(|r.calls|, None, true)] == [NewVerify(id, None), Resume(|r.calls|, None, true)];
  }

  lemma Verifies(r: Race, calls: seq<Call>, id: string, o: OrderRow, amount: int64)
    requires r.calls == calls + [AskingProvider(id, o)] && o.amount == amount
    ensures Interleave(r, ConfirmNow(|calls|, amount)) == Race(ConfirmOrder(r.state, id).state, calls + [Ended])
  {
    var ask, confirm := Resume(|calls|, Some(amount), true), Resume(|calls|, None, true);
    Follow(r, [ask], confirm);
    InterleaveOne(r, ask);
    LastResumed(r, calls, AskingProvider(id, o), Some(amount));
    LastResumed(Interleave(r, [ask]), calls, Confirming(id), None);
    assert [ask] + [confirm] == [ask, confirm];
  }

  lemma AskedMeanwhile(r: Race, id: string)
    requires id in r.state.orders && r.state.orders[id].status == Pending
    ensures var n, o := |r.calls|, r.state.orders[id];
            Interleave(r, AskMeanwhile(n, id)) == Race(r.state, r.calls + [Overwriting(id, o)] + [AskingProvider(id, o)])
  {
    var n := |r.calls|;
    FailureParks(r, id);
    ProviderAsked(Race(r.state, r.calls + [Overwriting(id, r.state.orders[id])]), id);
    InterleaveMore(r, [NewFail(id), Resume(n, None, true)], [NewVerify(id, None), Resume(n + 1, None, true)]);
  }

  lemma MeanwhileIs(r: Race, id: string, amount: int64)
    requires id in r.state.orders && r.state.orders[id].status == Pending && r.state.orders[id].amount == amount
    ensures var t := Interleave(r, VerifiedMeanwhile(|r.calls|, id, amount));
            && t.state == ConfirmOrder(r.state, id).state
            && t.calls == r.calls + [Overwriting(id, r.state.orders[id])] + [Ended]
  {
    var n, o := |r.calls|, r.state.orders[id];
    var parked := r.calls + [Overwriting(id, o)];
    InterleaveMore(r, AskMeanwhile(n, id), ConfirmNow(n + 1, amount));
    AskedMeanwhile(r, id);
    Verifies(Race(r.state, parked + [AskingProvider(id, o)]), parked, id, o, amount);
  }

  lemma TopupConfirms(s: State, id: string)
    requires Inv(s) && id in s.orders && s.orders[id].status == Pending && s.orders[id].purpose == TopUp
    requires id !in s.verifyEvents
    ensures var t := ConfirmOrder(s, id).state;
            id in t.orders && t.orders[id] == s.orders[id].(status := Confirmed) && id in t.verifyEvents
  {
    assert OrderOk(s, id, s.orders[id]) && TopupKey(s, id);
    TransferSound(WalletTopup, TopupRef(id), PspClearing, Wallet(s.orders[id].payer), s.orders[id].amount);
  }

  lemma OverwritesParked(r: Race, n: nat, id: string)
    requires n < |r.calls| && r.calls[n].Overwriting? && r.calls[n].id == id
    requires id in r.state.orders && id in r.state.verifyEvents
    ensures var s := Act(r, Resume(n, None, true)).state;
            FailedAfterCredit(s, id) && s.orders[id].purpose == r.state.orders[id].purpose
  {}

  lemma LateFailure(pre: seq<Action>, id: string, amount: int64)
    requires var r := Interleave(START, pre);
             && id in r.state.orders && id !in r.state.verifyEvents
             && r.state.orders[id].purpose == TopUp && r.state.orders[id].status == Pending
             && r.state.orders[id].amount == amount
    ensures var n := |Interleave(START, pre).calls|;
            var s := Interleave(START, pre + VerifiedMeanwhile(n, id, amount) + [Resume(n, None, true)]).state;
            FailedAfterCredit(s, id) && s.orders[id].purpose == TopUp
  {
    var r := Interleave(START, pre);
    var n := |r.calls|;
    InterleavingOk(pre);
    InterleaveMore(START, pre, VerifiedMeanwhile(n, id, amount));
    MeanwhileIs(r, id, amount);
    TopupConfirms(r.state, id);
    Follow(START, pre + VerifiedMeanwhile(n, id, amount), Resume(n, None, true));
    OverwritesParked(Interleave(START, pre + VerifiedMeanwhile(n, id, amount)), n, id);
  }

  /** The lost confirmation: in every interleaving so far with a pending topup that was not credited, these actions credit it
      and leave it FAILED, and no continuation whatever makes it CONFIRMED again or takes the credit back. */
  lemma LateFailureLoses(pre: seq<Action>, id: string, amount: int64, after: seq<Action>)
    requires var r := Interleave(START, pre);
             && id in r.state.orders && id !in r.state.verifyEvents
             && r.state.orders[id].purpose == TopUp && r.state.orders[id].status == Pending
             && r.state.orders[id].amount == amount
    ensures var n := |Interleave(START, pre).calls|;
            var s := Interleave(START, pre + VerifiedMeanwhile(n, id, amount) + [Resume(n, None, true)] + after).state;
            && FailedAfterCredit(s, id)
            && s.orders[id].purpose == TopUp && OnlyOne(s.log, TopupJournal(id, s.orders[id].payer, s.orders[id].amount))
  {
    var n := |Interleave(START, pre).calls|;
    var lost := pre + VerifiedMeanwhile(n, id, amount) + [Resume(n, None, true)];
    LateFailure(pre, id, amount);
    InterleavingOk(lost);
    InterleaveMore(START, lost, after);
    FailedForGood(Interleave(START, lost), after, id);
    PurposeKept(Interleave(START, lost), after, id);
    CreditedAtMostOnce(lost + after, id);
  }

  lemma ActPurpose(r: Race, a: Action, id: string)
    requires RaceOk(r) && id in r.state.orders
    ensures id in Act(r, a).state.orders && Act(r, a).state.orders[id].purpose == r.state.orders[id].purpose
  {
    var m := ActMoves(r, a);
    OrderPersists(r.state, m, id);
  }

  lemma {:induction false} PurposeKept(r: Race, actions: seq<Action>, id: string)
    requires RaceOk(r) && id in r.state.orders
    ensures id in Interleave(r, actions).state.orders
    ensures Interleave(r, actions).state.orders[id].purpose == r.state.orders[id].purpose
  {
    if actions != [] {
      PurposeKept(r, actions[..|actions| - 1], id);
      ContinuationOk(r, actions[..|actions| - 1]);
      ActPurpose(Interleave(r, actions[..|actions| - 1]), actions[|actions| - 1], id);
    }
  }

  /** Such interleavings exist: from nothing, one topup order and these actions lose its confirmation. */
  lemma LateFailureWitness(id: Uuid, user: string, amount: int64, url: string, track: string)
    requires user != "" && amount > 0 && url != ""
    ensures var pre := [Whole(Command(DoCreateWalletTopupOrder(id, user, amount, url, url, Some(track), true), true))];
            FailedAfterCredit(Interleave(START, pre + VerifiedMeanwhile(0, id, amount) + [Resume(0, None, true)]).state, id)
  {
    var c := Command(DoCreateWalletTopupOrder(id, user, amount, url, url, Some(track), true), true);
    var pre := [Whole(c)];
    InterleaveOne(START, Whole(c));
    assert Interleave(START, pre) == Race(EMPTY.(orders := map[id := OrderRow("", user, TopUp, amount, Pending, track)]), []);
    LateFailureLoses(pre, id, amount, []);
    var all := pre + VerifiedMeanwhile(0, id, amount) + [Resume(0, None, true)];
    assert all + [] == all;
  }
}
