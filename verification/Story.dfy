/** What the journals say happened to each escrow, and how the tables explain every account balance. */
module Story {
  import opened Accounts
  import opened Refs
  import opened Ledger
  import opened Domain
  import opened Machine
  import opened Totals

  /** An amount made of promo credit and wallet money. */
  datatype Money = Money(promo: int, wallet: int)

  /** The money that has gone into and out of one escrow, by where it came from and where it went. */
  datatype Story = Story(shipment: string, paid: Money, back: Money, fee: int, carrierPaid: int)
  {
    /** All that has left the escrow. */
    function Out(): int {
      back.promo + back.wallet + fee + carrierPaid
    }

    function Held(): int {
      paid.promo + paid.wallet - Out()
    }

    /** Nothing has gone in or out. */
    predicate Blank() {
      paid.promo == 0 && paid.wallet == 0 && back.promo == 0 && back.wallet == 0 && fee == 0 && carrierPaid == 0
    }

    function PaidIn(promo: int, wallet: int): Story {
      this.(paid := Money(paid.promo + promo, paid.wallet + wallet))
    }

    function PaidBack(promo: int, wallet: int): Story {
      this.(back := Money(back.promo + promo, back.wallet + wallet))
    }

    function PaidOut(toFee: int, toCarrier: int): Story {
      this.(fee := fee + toFee, carrierPaid := carrierPaid + toCarrier)
    }
  }

  /** How one journal continues the story of a shipment's escrow. */
  function Continue(t: Story, j: Journal, ship: string): Story {
    if Flow(j.lines, Of(Escrow(ship))) == 0 then t
    else
      match j.refType
      case WalletToEscrow => t.PaidIn(-Flow(j.lines, OfKind(Promos)), -Flow(j.lines, OfKind(Wallets)))
      case PromoCreditToEscrow => t.PaidIn(-Flow(j.lines, OfKind(Promos)), -Flow(j.lines, OfKind(Wallets)))
      case EscrowRefundPromoCredit => t.PaidBack(Flow(j.lines, OfKind(Promos)), 0)
      case EscrowRefundWallet => t.PaidBack(0, Flow(j.lines, OfKind(Wallets)))
      case EscrowRelease => t.PaidOut(Flow(j.lines, OfKind(Fee)), Flow(j.lines, OfKind(Wallets)))
      case _ => t
  }

  function StoryOf(log: Log, ship: string): Story {
    if log == [] then Story(ship, Money(0, 0), Money(0, 0), 0, 0)
    else Continue(StoryOf(log[..|log| - 1], ship), log[|log| - 1], ship)
  }

  /** The amounts of a shipment's refund journals of one kind, oldest first. */
  function Legs(log: Log, rt: RefType, ship: string): seq<int> {
    if log == [] then []
    else
      var j := log[|log| - 1];
      var amount := Debit(j.lines, Of(Escrow(ship)));
      Legs(log[..|log| - 1], rt, ship) + if j.refType == rt && amount != 0 then [amount] else []
  }

  // ---- the tables' explanation of a balance ----------------------------------------------------

  /** What one escrow row and its story put on an account. */
  function EscrowShare(ship: string, e: EscrowRow, t: Story, a: Account): int {
    var pspIn: int := if e.source == FromPsp then e.amount else 0;
    (if a == PspClearing then -pspIn else 0)
    + (if a == Wallet(e.payer) then pspIn - t.paid.wallet + t.back.wallet else 0)
    + (if a == Promo(e.payer) then t.back.promo - t.paid.promo else 0)
    + (if a == Wallet(e.carrier) then t.carrierPaid else 0)
    + (if a == FeeRevenue then t.fee else 0)
    + (if a == Escrow(ship) then t.Held() else 0)
  }

  /** A topup counts from its verification on. */
  function OrderShare(o: OrderRow, verified: bool, a: Account): int {
    var amount: int := o.amount;
    if o.purpose == TopUp && verified then
      (if a == PspClearing then -amount else 0) + (if a == Wallet(o.payer) then amount else 0)
    else 0
  }

  /** A withdrawal counts unless its reserve has been given back. */
  function WithdrawalShare(w: WithdrawalRow, a: Account): int {
    var amount: int := w.amount;
    if w.status.Returned() then 0
    else (if a == Wallet(w.user) then -amount else 0) + (if a == PayoutClearing then amount else 0)
  }

  /** A grant counts by its journals, which a failed commit may have left out. */
  function GrantShare(g: GrantRow, posted: bool, reversed: bool, a: Account): int {
    var amount := (if posted then g.amount else 0) - (if reversed then g.amount else 0);
    (if a == PromoExpense then -amount else 0) + (if a == Promo(g.user) then amount else 0)
  }

  predicate GrantPosted(log: Log, id: string) {
    (PromoCreditGrant, id) in Keys(log)
  }

  predicate ReversalPosted(log: Log, id: string) {
    (PromoCreditReverse, ReverseRef(id)) in Keys(log)
  }

  ghost function EscrowShares(s: State, a: Account): map<string, int> {
    map ship | ship in s.escrows :: EscrowShare(ship, s.escrows[ship], StoryOf(s.log, ship), a)
  }

  ghost function OrderShares(s: State, a: Account): map<string, int> {
    map id | id in s.orders :: OrderShare(s.orders[id], id in s.verifyEvents, a)
  }

  ghost function WithdrawalShares(s: State, a: Account): map<string, int> {
    map id | id in s.withdrawals :: WithdrawalShare(s.withdrawals[id], a)
  }

  ghost function GrantShares(s: State, a: Account): map<string, int> {
    map id | id in s.grants :: GrantShare(s.grants[id], GrantPosted(s.log, id), ReversalPosted(s.log, id), a)
  }

  ghost function Explained(s: State, a: Account): int {
    Total(EscrowShares(s, a)) + Total(OrderShares(s, a)) + Total(WithdrawalShares(s, a)) + Total(GrantShares(s, a))
  }

  /** The ledger and the tables tell the same story about every account. */
  ghost predicate Agrees(s: State) {
    forall a :: Net(s.log, Of(a)) == Explained(s, a)
  }

  /** Only the row and the story of one shipment differ. */
  ghost predicate EscrowsDifferAt(s: State, t: State, ship: string) {
    && t.escrows.Keys == s.escrows.Keys + {ship}
    && forall x :: x in s.escrows && x != ship ==> t.escrows[x] == s.escrows[x] && StoryOf(t.log, x) == StoryOf(s.log, x)
  }

  lemma SameShare(s: State, t: State, x: string, a: Account)
    requires x in s.escrows && x in t.escrows
    requires t.escrows[x] == s.escrows[x] && StoryOf(t.log, x) == StoryOf(s.log, x)
    ensures EscrowShares(t, a)[x] == EscrowShares(s, a)[x]
  {}

  /** Changing one entry of a map. */
  lemma PutOne(before: map<string, int>, after: map<string, int>, k: string)
    requires after.Keys == before.Keys + {k}
    requires forall x :: x in before && x != k ==> after[x] == before[x]
    ensures after == before[k := after[k]]
  {}

  lemma EscrowSharesPut(s: State, t: State, ship: string, a: Account)
    requires EscrowsDifferAt(s, t, ship)
    ensures EscrowShares(t, a) == EscrowShares(s, a)[ship := EscrowShares(t, a)[ship]]
  {
    forall x | x in EscrowShares(s, a) && x != ship ensures EscrowShares(t, a)[x] == EscrowShares(s, a)[x] {
      SameShare(s, t, x, a);
    }
    PutOne(EscrowShares(s, a), EscrowShares(t, a), ship);
  }

  lemma EscrowTotalMoves(s: State, t: State, ship: string, a: Account)
    requires EscrowsDifferAt(s, t, ship)
    ensures Total(EscrowShares(t, a)) == Total(EscrowShares(s, a))
              - (if ship in s.escrows then EscrowShare(ship, s.escrows[ship], StoryOf(s.log, ship), a) else 0)
              + EscrowShare(ship, t.escrows[ship], StoryOf(t.log, ship), a)
  {
    EscrowSharesPut(s, t, ship, a);
    TotalPut(EscrowShares(s, a), ship, EscrowShares(t, a)[ship]);
  }

  lemma EscrowTotalStays(s: State, t: State, a: Account)
    requires t.escrows == s.escrows
    requires forall x :: x in s.escrows ==> StoryOf(t.log, x) == StoryOf(s.log, x)
    ensures Total(EscrowShares(t, a)) == Total(EscrowShares(s, a))
  {
    assert EscrowShares(t, a) == EscrowShares(s, a);
  }

  lemma OrderTotalMoves(s: State, t: State, id: string, o: OrderRow, a: Account)
    requires t.orders == s.orders[id := o]
    requires forall x :: x != id ==> (x in t.verifyEvents <==> x in s.verifyEvents)
    ensures Total(OrderShares(t, a)) == Total(OrderShares(s, a))
              - (if id in s.orders then OrderShare(s.orders[id], id in s.verifyEvents, a) else 0)
              + OrderShare(o, id in t.verifyEvents, a)
  {
    var v := OrderShare(o, id in t.verifyEvents, a);
    assert OrderShares(t, a) == OrderShares(s, a)[id := v];
    TotalPut(OrderShares(s, a), id, v);
  }

  lemma WithdrawalTotalMoves(s: State, t: State, id: string, w: WithdrawalRow, a: Account)
    requires t.withdrawals == s.withdrawals[id := w]
    ensures Total(WithdrawalShares(t, a)) == Total(WithdrawalShares(s, a))
              - (if id in s.withdrawals then WithdrawalShare(s.withdrawals[id], a) else 0) + WithdrawalShare(w, a)
  {
    assert WithdrawalShares(t, a) == WithdrawalShares(s, a)[id := WithdrawalShare(w, a)];
    TotalPut(WithdrawalShares(s, a), id, WithdrawalShare(w, a));
  }

  /** Only the row and the journals of one grant differ. */
  ghost predicate GrantsDifferAt(s: State, t: State, id: string) {
    && t.grants.Keys == s.grants.Keys + {id}
    && forall x :: x in s.grants && x != id ==>
         t.grants[x] == s.grants[x]
         && GrantPosted(t.log, x) == GrantPosted(s.log, x) && ReversalPosted(t.log, x) == ReversalPosted(s.log, x)
  }

  lemma GrantTotalMoves(s: State, t: State, id: string, a: Account)
    requires GrantsDifferAt(s, t, id)
    ensures Total(GrantShares(t, a)) == Total(GrantShares(s, a))
              - (if id in s.grants then GrantShare(s.grants[id], GrantPosted(s.log, id), ReversalPosted(s.log, id), a) else 0)
              + GrantShare(t.grants[id], GrantPosted(t.log, id), ReversalPosted(t.log, id), a)
  {
    PutOne(GrantShares(s, a), GrantShares(t, a), id);
    TotalPut(GrantShares(s, a), id, GrantShares(t, a)[id]);
  }
}
