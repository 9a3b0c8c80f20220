/** Every legal move keeps the orders, keys, refund legs and promo floor in order, and so the invariant. */
module Bookkeeping {
  import opened Results
  import opened Accounts
  import opened Refs
  import opened Ledger
  import opened Postings
  import opened Domain
  import opened Machine
  import opened Story
  import opened Totals
  import opened Effects
  import opened Moves
  import opened Preservation

  // ---- orders and funding ----------------------------------------------------------------------

  /** What no move changes in an escrow row. */
  lemma RowPersists(s: State, m: Move, ship: string)
    requires Legal(s, m) && ship in s.escrows
    ensures ship in EscrowsAfter(s, m)
    ensures var e, f := s.escrows[ship], EscrowsAfter(s, m)[ship];
            && f.payer == e.payer && f.amount == e.amount
            && (e.status != Created ==>
                  f.status != Created && f.source == e.source && f.paymentOrderId == e.paymentOrderId)
  {}

  lemma OrderKept(s: State, m: Move, id: string)
    requires Legal(s, m) && id in s.orders && s.verifyEvents <= s.orders.Keys && OrderOk(s, id, s.orders[id])
    requires s.orders[id].purpose == Shipment ==> EscrowTells(s, s.orders[id].shipmentId)
    ensures id in OrdersAfter(s, m) && OrderOk(Apply(s, m), id, OrdersAfter(s, m)[id])
  {
    var o := s.orders[id];
    if o.purpose == Shipment {
      RowPersists(s, m, o.shipmentId);
    } else if m == ConfirmTopup(id) {
      assert Journals(EffectOf(s, m))[0] == TopupJournal(id, o.payer, o.amount);
    }
  }

  lemma OrdersKept(s: State, m: Move)
    requires Legal(s, m) && OrdersOk(s) && EscrowsOk(s)
    ensures OrdersOk(Apply(s, m))
  {
    var t := Apply(s, m);
    forall id | id in t.orders ensures OrderOk(t, id, t.orders[id]) {
      if id in s.orders {
        if s.orders[id].purpose == Shipment {
          assert EscrowTells(s, s.orders[id].shipmentId);
        }
        OrderKept(s, m, id);
      }
    }
  }

  lemma RowFunded(s: State, m: Move, ship: string)
    requires Legal(s, m) && EscrowTells(s, ship) && ship in EscrowsAfter(s, m)
    requires ship in s.escrows ==> FundingRecorded(s.log, ship, s.escrows[ship])
    ensures FundingRecorded(Apply(s, m).log, ship, EscrowsAfter(s, m)[ship])
  {
    var e, js := EscrowsAfter(s, m)[ship], Journals(EffectOf(s, m));
    if EscrowOf(s, m) == Some(ship) && (m.Fund? || m.ConfirmShipment?) {
      assert js == FundingJournals(ship, e.paymentOrderId, e.payer, e.amount);
      assert js[0] in js && js[1] in js;
    }
  }

  lemma FundingKept(s: State, m: Move)
    requires Legal(s, m) && EscrowsOk(s) && FundingOk(s)
    ensures FundingOk(Apply(s, m))
  {
    var t := Apply(s, m);
    forall ship | ship in t.escrows ensures FundingRecorded(t.log, ship, t.escrows[ship]) {
      assert EscrowTells(s, ship);
      RowFunded(s, m, ship);
    }
  }

  lemma AmountsKept(s: State, m: Move)
    requires Legal(s, m) && AmountsOk(s)
    ensures AmountsOk(Apply(s, m))
  {}

  lemma WithdrawalRecordKept(s: State, m: Move, id: string)
    requires Legal(s, m) && id in WithdrawalsAfter(s, m)
    requires id in s.withdrawals ==> WithdrawalRecorded(s.log, id, s.withdrawals[id])
    ensures WithdrawalRecorded(Apply(s, m).log, id, WithdrawalsAfter(s, m)[id])
  {
    var js := Journals(EffectOf(s, m));
    if (m.Reserve? || m.GiveBack?) && m.id == id {
      assert js[0] in js;
    }
  }

  lemma GrantRecordKept(s: State, m: Move, id: string)
    requires Legal(s, m) && Sound(EffectOf(s, m)) && GrantKeys(s, id) && id in GrantsAfter(s, m)
    requires id in s.grants ==> GrantRecorded(s.log, id, s.grants[id])
    ensures GrantRecorded(Apply(s, m).log, id, GrantsAfter(s, m)[id])
  {
    var js := Journals(EffectOf(s, m));
    GrantFlags(s, m, id);
    if (m.Grant? || m.Reverse?) && m.id == id {
      assert js[0] in js;
    }
  }

  lemma RecordsKept(s: State, m: Move)
    requires Legal(s, m) && Sound(EffectOf(s, m)) && KeysOk(s) && RecordsOk(s)
    ensures RecordsOk(Apply(s, m))
  {
    var t := Apply(s, m);
    forall id | id in t.withdrawals ensures WithdrawalRecorded(t.log, id, t.withdrawals[id]) {
      WithdrawalRecordKept(s, m, id);
    }
    forall id | id in t.grants ensures GrantRecorded(t.log, id, t.grants[id]) {
      GrantRecordKept(s, m, id);
    }
  }

  // ---- keys ------------------------------------------------------------------------------------

  lemma WithdrawalTaken(s: State, m: Move, id: string)
    requires Legal(s, m)
    ensures (WithdrawalReserve, ReserveRef(id)) in Taken(EffectOf(s, m)) <==> m.Reserve? && m.id == id
    ensures (WithdrawalRejectReversal, FailRef(id)) in Taken(EffectOf(s, m)) <==> m == GiveBack(id, WFailed)
    ensures (WithdrawalRejectReversal, RejectRef(id)) in Taken(EffectOf(s, m)) <==> m == GiveBack(id, Rejected)
  {
    if m.Reserve? || m.GiveBack? {
      OneIdRefsInjective(m.id, id);
      OneIdRefsInjective(id, m.id);
    }
  }

  lemma WithdrawalAfter(s: State, m: Move, id: string)
    requires Legal(s, m)
    ensures id in WithdrawalsAfter(s, m) <==> id in s.withdrawals || (m.Reserve? && m.id == id)
    ensures forall to: WithdrawalStatus :: to.Returned() ==>
              (id in WithdrawalsAfter(s, m) && WithdrawalsAfter(s, m)[id].status == to <==>
               m == GiveBack(id, to) || (id in s.withdrawals && s.withdrawals[id].status == to))
  {}

  lemma WithdrawalKeysKept(s: State, m: Move, id: string)
    requires Legal(s, m) && Sound(EffectOf(s, m)) && WithdrawalKeys(s, id)
    ensures WithdrawalKeys(Apply(s, m), id)
  {
    EffectKeys(s.log, EffectOf(s, m));
    WithdrawalTaken(s, m, id);
    WithdrawalAfter(s, m, id);
    assert WFailed.Returned() && Rejected.Returned();
  }

  lemma GrantAfter(s: State, m: Move, id: string)
    requires Legal(s, m)
    ensures id in GrantsAfter(s, m) <==> id in s.grants || ((m.Grant? || m.LoseGrant?) && m.id == id)
    ensures id in GrantsAfter(s, m) && GrantsAfter(s, m)[id].status == Reversed <==>
            m == Reverse(id) || m == LoseReverse(id) || (id in s.grants && s.grants[id].status == Reversed)
  {}

  lemma GrantKeysKept(s: State, m: Move, id: string)
    requires Legal(s, m) && Sound(EffectOf(s, m)) && GrantKeys(s, id)
    ensures GrantKeys(Apply(s, m), id)
  {
    GrantFlags(s, m, id);
    GrantAfter(s, m, id);
  }

  /** Only a failed commit of its own makes a grant lose a journal. */
  lemma WholeKept(s: State, m: Move, id: string)
    requires Legal(s, m) && Sound(EffectOf(s, m)) && GrantWhole(s, id)
    ensures m != LoseReverse(id) && !(m.LoseGrant? && m.id == id) ==> GrantWhole(Apply(s, m), id)
  {
    GrantFlags(s, m, id);
    GrantAfter(s, m, id);
  }

  lemma TopupTaken(s: State, m: Move, id: string)
    requires Legal(s, m)
    ensures (WalletTopup, TopupRef(id)) in Taken(EffectOf(s, m)) <==> m == ConfirmTopup(id)
  {
    if m.ConfirmTopup? {
      OneIdRefsInjective(m.id, id);
    }
  }

  lemma TopupKeyKept(s: State, m: Move, id: string)
    requires Legal(s, m) && Sound(EffectOf(s, m)) && TopupKey(s, id) && s.verifyEvents <= s.orders.Keys
    ensures TopupKey(Apply(s, m), id)
  {
    EffectKeys(s.log, EffectOf(s, m));
    TopupTaken(s, m, id);
  }

  lemma ReleaseTaken(s: State, m: Move, ship: string)
    requires Legal(s, m)
    ensures (EscrowRelease, ReleaseRef(ship)) in Taken(EffectOf(s, m)) <==> m.Release? && m.ship == ship
  {
    if m.Release? {
      OneIdRefsInjective(m.ship, ship);
    }
  }

  /** A released escrow stays released, and only a release releases one. */
  lemma ReleasedAfter(s: State, m: Move, ship: string)
    requires Legal(s, m)
    ensures ship in EscrowsAfter(s, m) && EscrowsAfter(s, m)[ship].status == Released <==>
            (m.Release? && m.ship == ship) || (ship in s.escrows && s.escrows[ship].status == Released)
  {}

  lemma ReleaseKeyKept(s: State, m: Move, ship: string)
    requires Legal(s, m) && Sound(EffectOf(s, m)) && ReleaseKey(s, ship)
    ensures ReleaseKey(Apply(s, m), ship)
  {
    EffectKeys(s.log, EffectOf(s, m));
    ReleaseTaken(s, m, ship);
    ReleasedAfter(s, m, ship);
  }

  lemma KeysKept(s: State, m: Move)
    requires Legal(s, m) && Sound(EffectOf(s, m)) && KeysOk(s) && s.verifyEvents <= s.orders.Keys
    ensures KeysOk(Apply(s, m))
  {
    forall id ensures WithdrawalKeys(Apply(s, m), id) {
      WithdrawalKeysKept(s, m, id);
    }
    forall id ensures GrantKeys(Apply(s, m), id) {
      GrantKeysKept(s, m, id);
    }
    forall id ensures TopupKey(Apply(s, m), id) {
      TopupKeyKept(s, m, id);
    }
    forall ship ensures ReleaseKey(Apply(s, m), ship) {
      ReleaseKeyKept(s, m, ship);
    }
  }

  /** A funding key an effect takes belongs to the escrow its move writes. */
  lemma FundingKeyNew(s: State, m: Move, rt: RefType, ref: string)
    requires Legal(s, m) && rt in {PspToWallet, WalletToEscrow, PromoCreditToEscrow}
    requires (rt, ref) in Taken(EffectOf(s, m))
    ensures EscrowOf(s, m).Some?
    ensures EscrowAfter(s, m).status != Created && ref in FundingRefs(EscrowOf(s, m).value, EscrowAfter(s, m), rt)
  {}

  lemma FundingKeyKept(s: State, m: Move, rt: RefType, ref: string)
    requires Legal(s, m) && Sound(EffectOf(s, m)) && FundingKeyTells(s, rt, ref)
    requires rt in {PspToWallet, WalletToEscrow, PromoCreditToEscrow}
    ensures FundingKeyTells(Apply(s, m), rt, ref)
  {
    EffectKeys(s.log, EffectOf(s, m));
    if (rt, ref) in Taken(EffectOf(s, m)) {
      FundingKeyNew(s, m, rt, ref);
      var ship := EscrowOf(s, m).value;
      assert ship in Apply(s, m).escrows;
    } else if (rt, ref) in Keys(s.log) {
      var ship :| ship in s.escrows && s.escrows[ship].status != Created && ref in FundingRefs(ship, s.escrows[ship], rt);
      RowPersists(s, m, ship);
      assert ship in Apply(s, m).escrows;
    }
  }

  // ---- refund legs -----------------------------------------------------------------------------

  lemma DistinctNext(xs: seq<int>, x: int)
    requires Distinct(xs) && x > 0 && x !in xs
    ensures Distinct(xs + [x])
  {}

  lemma SumNext(xs: seq<int>, x: int)
    ensures SumOf(xs + [x]) == SumOf(xs) + x
  {}

  /** The leg of one kind that an effect adds for a shipment, or nothing. */
  function LegIn(f: Effect, rt: RefType, ship: string): int
    requires Sound(f)
  {
    if f.PayBack? && f.ship == ship then (if rt == EscrowRefundPromoCredit then f.promo else f.wallet) else 0
  }

  /** A refund key is taken by an effect exactly when the effect adds that leg. */
  lemma LegTaken(f: Effect, rt: RefType, ship: string, n: nat)
    requires Sound(f) && IsRefund(rt)
    ensures (rt, RefundRef(rt, ship, n)) in Taken(f) <==> n == LegIn(f, rt, ship) > 0
  {
    if f.PayBack? {
      RefundRefsInjective(f.ship, f.promo, ship, n);
      RefundRefsInjective(f.ship, f.wallet, ship, n);
    }
  }

  lemma LegsAfter(log: Log, f: Effect, rt: RefType, ship: string)
    requires Sound(f) && IsRefund(rt)
    ensures var leg := LegIn(f, rt, ship);
            && leg >= 0
            && Legs(log + Journals(f), rt, ship) == Legs(log, rt, ship) + if leg > 0 then [leg] else []
  {
    EffectLegs(log, f, rt, ship);
    assert Legs(log, rt, ship) + [] == Legs(log, rt, ship);
  }

  lemma BackAfter(log: Log, f: Effect, rt: RefType, ship: string)
    requires Sound(f) && IsRefund(rt)
    ensures BackIn(StoryOf(log + Journals(f), ship), rt) == BackIn(StoryOf(log, ship), rt) + LegIn(f, rt, ship)
  {
    EffectStory(log, f, ship);
  }

  lemma LegKeyAfter(log: Log, f: Effect, rt: RefType, ship: string, n: nat)
    requires Sound(f) && IsRefund(rt)
    ensures (rt, RefundRef(rt, ship, n)) in Keys(log + Journals(f)) <==>
            (rt, RefundRef(rt, ship, n)) in Keys(log) || n == LegIn(f, rt, ship) > 0
  {
    EffectKeys(log, f);
    LegTaken(f, rt, ship, n);
  }

  lemma LegIsNew(log: Log, f: Effect, rt: RefType, ship: string)
    requires Sound(f) && IsRefund(rt) && LegsTell(log, rt, ship) && Taken(f) !! Keys(log) && LegIn(f, rt, ship) > 0
    ensures LegIn(f, rt, ship) !in Legs(log, rt, ship)
  {
    LegTaken(f, rt, ship, LegIn(f, rt, ship));
  }

  lemma LegKeyKept(log: Log, f: Effect, rt: RefType, ship: string, n: nat)
    requires Sound(f) && IsRefund(rt) && LegsTell(log, rt, ship)
    ensures (rt, RefundRef(rt, ship, n)) in Keys(log + Journals(f)) <==> n in Legs(log + Journals(f), rt, ship)
  {
    LegsAfter(log, f, rt, ship);
    LegKeyAfter(log, f, rt, ship, n);
  }

  lemma LegSumKept(log: Log, f: Effect, rt: RefType, ship: string)
    requires Sound(f) && IsRefund(rt) && LegsTell(log, rt, ship) && Taken(f) !! Keys(log)
    ensures var legs := Legs(log + Journals(f), rt, ship);
            Distinct(legs) && SumOf(legs) == BackIn(StoryOf(log + Journals(f), ship), rt)
  {
    var legs, leg := Legs(log, rt, ship), LegIn(f, rt, ship);
    LegsAfter(log, f, rt, ship);
    BackAfter(log, f, rt, ship);
    if leg > 0 {
      LegIsNew(log, f, rt, ship);
      DistinctNext(legs, leg);
      SumNext(legs, leg);
    } else {
      assert legs + [] == legs;
    }
  }

  lemma LegsKept(log: Log, f: Effect, rt: RefType, ship: string)
    requires Sound(f) && IsRefund(rt) && LegsTell(log, rt, ship) && Taken(f) !! Keys(log)
    ensures LegsTell(log + Journals(f), rt, ship)
  {
    LegSumKept(log, f, rt, ship);
    forall n: nat
      ensures (rt, RefundRef(rt, ship, n)) in Keys(log + Journals(f)) <==> n in Legs(log + Journals(f), rt, ship)
    {
      LegKeyKept(log, f, rt, ship, n);
    }
  }

  // ---- promo floor -----------------------------------------------------------------------------

  lemma ReversedGrows(s: State, t: State, id: string, user: string)
    requires id in s.grants && s.grants[id].status == Active && s.grants[id].user == user
    requires t.grants == s.grants[id := s.grants[id].(status := Reversed)]
    ensures Total(ReversedOf(t, user)) == Total(ReversedOf(s, user)) + s.grants[id].amount
  {
    assert ReversedOf(t, user) == ReversedOf(s, user)[id := s.grants[id].amount];
    TotalPut(ReversedOf(s, user), id, s.grants[id].amount);
  }

  lemma ReversedStays(s: State, m: Move, user: string)
    requires Legal(s, m) && !((m.Reverse? || m.LoseReverse?) && s.grants[m.id].user == user)
    ensures ReversedOf(Apply(s, m), user) == ReversedOf(s, user)
  {}

  lemma ReversedAfter(s: State, m: Move, user: string)
    requires Legal(s, m)
    ensures Total(ReversedOf(Apply(s, m), user)) ==
            Total(ReversedOf(s, user))
            + (if (m.Reverse? || m.LoseReverse?) && s.grants[m.id].user == user then s.grants[m.id].amount else 0)
  {
    if (m.Reverse? || m.LoseReverse?) && s.grants[m.id].user == user {
      ReversedGrows(s, Apply(s, m), m.id, user);
    } else {
      ReversedStays(s, m, user);
    }
  }

  lemma FloorKept(s: State, m: Move, user: string)
    requires Legal(s, m) && Sound(EffectOf(s, m)) && AmountsOk(s) && FloorHolds(s, user)
    ensures FloorHolds(Apply(s, m), user)
  {
    EffectNet(s.log, EffectOf(s, m), Promo(user));
    PromoFalls(s, m, user);
    ReversedAfter(s, m, user);
    TotalNonNegative(ReversedOf(s, user));
  }

  /** Only a reversal takes a promo balance below zero, and by no more than the grant. */
  lemma PromoFalls(s: State, m: Move, user: string)
    requires Legal(s, m) && Sound(EffectOf(s, m)) && AmountsOk(s)
    ensures var fall := -Delta(EffectOf(s, m), Promo(user));
            || fall <= Net(s.log, Of(Promo(user))) || fall <= 0
            || (m.Reverse? && s.grants[m.id].user == user && fall <= s.grants[m.id].amount)
  {}

  // ---- the invariant ---------------------------------------------------------------------------

  /** Every legal move keeps the invariant. */
  lemma MoveKeeps(s: State, m: Move)
    requires Inv(s) && Legal(s, m)
    ensures Inv(Apply(s, m))
  {
    var f := EffectOf(s, m);
    EffectSound(s, m);
    TakenFresh(s, m);
    EffectCovered(s, m);
    LogKept(s.log, f);
    SolventKept(s.log, f);
    EscrowsKept(s, m);
    AgreesKept(s, m);
    OrdersKept(s, m);
    FundingKept(s, m);
    AmountsKept(s, m);
    RecordsKept(s, m);
    KeysKept(s, m);
    forall rt, ref | rt in {PspToWallet, WalletToEscrow, PromoCreditToEscrow} ensures FundingKeyTells(Apply(s, m), rt, ref) {
      FundingKeyKept(s, m, rt, ref);
    }
    forall rt, ship | IsRefund(rt) ensures LegsTell(s.log + Journals(f), rt, ship) {
      assert LegsTell(s.log, rt, ship);
      LegsKept(s.log, f, rt, ship);
    }
    forall user ensures FloorHolds(Apply(s, m), user) {
      FloorKept(s, m, user);
    }
  }

  lemma EmptyInv()
    ensures Inv(EMPTY)
  {
    forall a ensures Net([], Of(a)) == Explained(EMPTY, a) {}
    forall user ensures FloorHolds(EMPTY, user) {
      assert ReversedOf(EMPTY, user) == map[];
    }
  }
}
