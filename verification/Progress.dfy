/** Escrow runs end: every step on an escrow makes a measure smaller. */
module Progress {
  import opened Results
  import opened Accounts
  import opened Ledger
  import opened Domain
  import opened Machine
  import opened Story
  import opened Effects
  import opened Moves
  import opened Preservation
  import opened Steps
  import opened Guarantees

  function Rank(status: EscrowStatus): nat {
    match status
    case Created => 5
    case Funded => 4
    case Locked => 3
    case DisputeWindow => 3
    case Frozen => 2
    case PartiallyRefunded => 1
    case Refunded => 0
    case Released => 0
  }

  /** (rank, balance) gets smaller in the lexicographic order. */
  predicate Below(e: EscrowRow, balance: int, f: EscrowRow, before: int) {
    Rank(e.status) < Rank(f.status) || (Rank(e.status) == Rank(f.status) && 0 < balance < before)
  }

  lemma PaymentDescends(s: State, m: Move, ship: string)
    requires m.Pay? || m.Fund? || m.ConfirmShipment?
    requires Legal(s, m) && EscrowOf(s, m) == Some(ship) && ship in s.escrows
    ensures ship in Apply(s, m).escrows && Rank(Apply(s, m).escrows[ship].status) < Rank(s.escrows[ship].status)
  {}

  lemma PayoutDescends(s: State, m: Move, ship: string)
    requires m.Release? || m.Return? || m.Progress?
    requires Legal(s, m) && EscrowTells(s, ship) && Sound(EffectOf(s, m))
    requires EscrowOf(s, m) == Some(ship) && ship in s.escrows
    ensures ship in Apply(s, m).escrows
    ensures Below(Apply(s, m).escrows[ship], Net(Apply(s, m).log, Of(Escrow(ship))),
                  s.escrows[ship], Net(s.log, Of(Escrow(ship))))
  {
    EffectNet(s.log, EffectOf(s, m), Escrow(ship));
  }

  /** Every move on an escrow that exists makes (status rank, balance) lexicographically smaller. */
  lemma EscrowMoveDescends(s: State, m: Move, ship: string)
    requires Legal(s, m) && EscrowTells(s, ship) && Sound(EffectOf(s, m))
    requires EscrowOf(s, m) == Some(ship) && ship in s.escrows
    ensures ship in Apply(s, m).escrows
    ensures Below(Apply(s, m).escrows[ship], Net(Apply(s, m).log, Of(Escrow(ship))),
                  s.escrows[ship], Net(s.log, Of(Escrow(ship))))
  {
    if m.Release? || m.Return? || m.Progress? {
      PayoutDescends(s, m, ship);
    } else {
      PaymentDescends(s, m, ship);
    }
  }

  /** A move on another escrow, or on none, changes neither the row nor the balance. */
  lemma OtherMoveKeeps(s: State, m: Move, ship: string)
    requires Legal(s, m) && EscrowTells(s, ship) && Sound(EffectOf(s, m)) && EscrowOf(s, m) != Some(ship) && ship in s.escrows
    ensures ship in Apply(s, m).escrows && Apply(s, m).escrows[ship] == s.escrows[ship]
    ensures Net(Apply(s, m).log, Of(Escrow(ship))) == Net(s.log, Of(Escrow(ship)))
  {
    EffectNet(s.log, EffectOf(s, m), Escrow(ship));
    EscrowDelta(StoryOf(s.log, ship), EffectOf(s, m), ship);
    OneStoryContinues(s, m, StoryOf(s.log, ship), ship);
  }

  /** The call confirms an order of this shipment. */
  ghost predicate Confirms(s: State, c: Command, ship: string) {
    var u, t := c.useCase, Execute(s, c).state;
    && (u.DoVerifyOrder? || u.DoHandleCallback?) && u.id in s.orders && u.id in t.orders
    && s.orders[u.id].purpose == Shipment && s.orders[u.id].shipmentId == ship
    && s.orders[u.id].status != Confirmed && t.orders[u.id].status == Confirmed
  }

  /** The call does something to an escrow that exists: a use case on it succeeds, or one of its orders is confirmed. */
  ghost predicate ActsOn(s: State, c: Command, ship: string) {
    && ship in s.escrows
    && ((OnEscrow(c.useCase) && c.useCase.ship == ship && Execute(s, c).result.Ok?) || Confirms(s, c, ship))
  }

  ghost predicate SameEscrow(s: State, t: State, ship: string)
    requires ship in s.escrows && ship in t.escrows
  {
    t.escrows[ship] == s.escrows[ship] && Net(t.log, Of(Escrow(ship))) == Net(s.log, Of(Escrow(ship)))
  }

  ghost predicate Descends(s: State, t: State, ship: string)
    requires ship in s.escrows && ship in t.escrows
  {
    Below(t.escrows[ship], Net(t.log, Of(Escrow(ship))), s.escrows[ship], Net(s.log, Of(Escrow(ship))))
  }

  /** A confirmed shipment order is the one move that pays for its escrow. */
  lemma ConfirmingMove(s: State, m: Move, id: string)
    requires Legal(s, m) && id in s.orders && s.orders[id].status != Confirmed && s.orders[id].purpose == Shipment
    requires id in OrdersAfter(s, m) && OrdersAfter(s, m)[id].status == Confirmed
    ensures EscrowOf(s, m) == Some(s.orders[id].shipmentId)
  {}

  lemma MoveDescends(s: State, m: Move, ship: string)
    requires Good(s) && Legal(s, m) && ship in s.escrows
    ensures ship in Apply(s, m).escrows
    ensures if EscrowOf(s, m) == Some(ship) then Descends(s, Apply(s, m), ship) else SameEscrow(s, Apply(s, m), ship)
  {
    Grounds(s, m, ship);
    if EscrowOf(s, m) == Some(ship) {
      EscrowMoveDescends(s, m, ship);
    } else {
      OtherMoveKeeps(s, m, ship);
    }
  }

  lemma ActingMove(s: State, c: Command, m: Move, ship: string)
    requires Executes(s, c, m) && ActsOn(s, c, ship)
    ensures EscrowOf(s, m) == Some(ship)
  {
    if Confirms(s, c, ship) {
      ConfirmingMove(s, m, c.useCase.id);
    }
  }

  lemma FailingMove(s: State, c: Command, m: Move)
    requires Executes(s, c, m) && Execute(s, c).result.Err?
    ensures EscrowOf(s, m) == None
  {}

  /** A call leaves an escrow's row and balance alone, or makes (status rank, balance) smaller. One that acts on the escrow
      makes it smaller, and one that fails leaves it alone. */
  lemma StepDescends(s: State, c: Command, ship: string)
    requires Reachable(s) && ship in s.escrows
    ensures var d := Execute(s, c);
            && ship in d.state.escrows
            && (SameEscrow(s, d.state, ship) || Descends(s, d.state, ship))
            && (ActsOn(s, c, ship) ==> Descends(s, d.state, ship))
            && (d.result.Err? ==> SameEscrow(s, d.state, ship))
  {
    ReachableGood(s);
    var m := ExecuteStep(s, c);
    MoveDescends(s, m, ship);
    if ActsOn(s, c, ship) {
      ActingMove(s, c, m, ship);
    }
    if Execute(s, c).result.Err? {
      FailingMove(s, c, m);
    }
  }

  lemma Grounds(s: State, m: Move, ship: string)
    requires Good(s) && Legal(s, m)
    ensures EscrowTells(s, ship) && Sound(EffectOf(s, m))
  {
    EffectSound(s, m);
  }

  // ---- how many steps --------------------------------------------------------------------------

  /** A bound on the steps an escrow still has before it. */
  function Remaining(status: EscrowStatus, amount: int, balance: int): int {
    match status
    case Created => amount + 4
    case Funded => balance + 3
    case Locked => balance + 2
    case DisputeWindow => balance + 2
    case Frozen => balance + 1
    case PartiallyRefunded => balance
    case Refunded => 0
    case Released => 0
  }

  ghost function RemainingOf(s: State, ship: string): int
    requires ship in s.escrows
  {
    Remaining(s.escrows[ship].status, s.escrows[ship].amount, Net(s.log, Of(Escrow(ship))))
  }

  /** Each change, and each call that acts on the escrow, takes at least one off the bound. */
  lemma RemainingDescends(s: State, c: Command, ship: string)
    requires Reachable(s) && ship in s.escrows
    ensures var t := Execute(s, c).state;
            && ship in t.escrows
            && 0 <= RemainingOf(t, ship) <= RemainingOf(s, ship)
            && (ActsOn(s, c, ship) || !SameEscrow(s, t, ship) ==> RemainingOf(t, ship) < RemainingOf(s, ship))
  {
    var t := Execute(s, c).state;
    StepDescends(s, c, ship);
    ReachableNext(s, c);
    StatusFixesBalance(s, ship);
    StatusFixesBalance(t, ship);
    SameAmount(s, c, ship);
  }

  lemma SameAmount(s: State, c: Command, ship: string)
    requires Reachable(s) && ship in s.escrows
    ensures ship in Execute(s, c).state.escrows && Execute(s, c).state.escrows[ship].amount == s.escrows[ship].amount
  {
    ReachableGood(s);
    var m := ExecuteStep(s, c);
  }

  /** How many calls of a run act on the escrow of a shipment after it was created, or change its row or balance. */
  ghost function Actions(cs: seq<Command>, ship: string): nat {
    if cs == [] then 0
    else
      var s, c := Run(EMPTY, cs[..|cs| - 1]), cs[|cs| - 1];
      var t := Execute(s, c).state;
      Actions(cs[..|cs| - 1], ship)
      + if ship in s.escrows && ship in t.escrows && (ActsOn(s, c, ship) || !SameEscrow(s, t, ship)) then 1 else 0
  }

  /** In a run of any length, at most A + 4 calls succeed on an escrow of amount A once it was created, and only they change
      it. */
  lemma {:induction false} FewActions(cs: seq<Command>, ship: string)
    ensures var s := Run(EMPTY, cs);
            if ship in s.escrows
            then Actions(cs, ship) + RemainingOf(s, ship) <= s.escrows[ship].amount + 4
                 && 0 <= RemainingOf(s, ship)
            else Actions(cs, ship) == 0
  {
    if cs != [] {
      var before, c := cs[..|cs| - 1], cs[|cs| - 1];
      var s := Run(EMPTY, before);
      FewActions(before, ship);
      if ship in s.escrows {
        RemainingDescends(s, c, ship);
        SameAmount(s, c, ship);
      } else if ship in Execute(s, c).state.escrows {
        NewEscrowCreated(s, c, ship);
      }
    }
  }

  lemma NewEscrowCreated(s: State, c: Command, ship: string)
    requires Reachable(s) && ship !in s.escrows && ship in Execute(s, c).state.escrows
    ensures Execute(s, c).state.escrows[ship].status == Created && Execute(s, c).state.escrows[ship].amount > 0
  {
    ReachableGood(s);
    var m := ExecuteStep(s, c);
  }
}
