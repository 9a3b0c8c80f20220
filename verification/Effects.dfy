/** Effects: the money one step transfers, the journals that record it, and what they do to balances,
    escrow stories, keys and refund legs. */
module Effects {
  import opened Accounts
  import opened Refs
  import opened Ledger
  import opened Postings
  import opened Story

  datatype Effect =
    | NoEffect
    | PayIn(ship: string, payer: string, promo: int, wallet: int)
    | FundIn(ship: string, order: string, payer: string, amount: int)
    | PayOut(ship: string, carrier: string, balance: int, fee: int)
    | PayBack(ship: string, payer: string, promo: int, wallet: int)
    | Plain(rt: RefType, ref: string, debited: Account, credited: Account, amount: int)

  /** The amounts are in range, and a plain transfer touches no escrow and is no refund. */
  predicate Sound(f: Effect) {
    match f
    case NoEffect => true
    case PayIn(_, _, promo, wallet) => promo >= 0 && wallet >= 0 && promo + wallet > 0
    case FundIn(_, _, _, amount) => amount > 0
    case PayOut(_, _, balance, fee) => 0 < fee < balance
    case PayBack(_, _, promo, wallet) => promo >= 0 && wallet >= 0 && promo + wallet > 0
    case Plain(rt, _, debited, credited, amount) =>
      amount > 0 && debited != credited && !debited.Escrow? && !credited.Escrow? && !IsRefund(rt)
  }

  predicate IsRefund(rt: RefType) {
    rt == EscrowRefundPromoCredit || rt == EscrowRefundWallet
  }

  function RefundRef(rt: RefType, ship: string, n: nat): string {
    if rt == EscrowRefundPromoCredit then RefundPromoRef(ship, n) else RefundWalletRef(ship, n)
  }

  function FundingJournals(ship: string, order: string, payer: string, amount: int): seq<Journal> {
    [PspLeg(ship, order, payer, amount), EscrowLeg(ship, order, payer, amount)]
  }

  /** The journals that record an effect, in order. */
  function Journals(f: Effect): seq<Journal> {
    match f
    case NoEffect => []
    case PayIn(ship, payer, promo, wallet) => [PayJournal(payer, ship, Split(promo, wallet), promo + wallet)]
    case FundIn(ship, order, payer, amount) => FundingJournals(ship, order, payer, amount)
    case PayOut(ship, carrier, balance, fee) => [ReleaseJournal(ship, carrier, balance, fee, balance - fee)]
    case PayBack(ship, payer, promo, wallet) => RefundJournals(payer, ship, promo, wallet)
    case Plain(rt, ref, debited, credited, amount) => [Transfer(rt, ref, debited, credited, amount)]
  }

  /** The change of an account's balance. */
  function Delta(f: Effect, a: Account): int {
    match f
    case NoEffect => 0
    case PayIn(ship, payer, promo, wallet) =>
      if a == Escrow(ship) then promo + wallet else if a == Promo(payer) then -promo else if a == Wallet(payer) then -wallet else 0
    case FundIn(ship, _, _, amount) =>
      if a == Escrow(ship) then amount else if a == PspClearing then -amount else 0
    case PayOut(ship, carrier, balance, fee) =>
      if a == Escrow(ship) then -balance else if a == FeeRevenue then fee else if a == Wallet(carrier) then balance - fee else 0
    case PayBack(ship, payer, promo, wallet) =>
      if a == Escrow(ship) then -(promo + wallet) else if a == Promo(payer) then promo else if a == Wallet(payer) then wallet else 0
    case Plain(_, _, debited, credited, amount) =>
      if a == credited then amount else if a == debited then -amount else 0
  }

  /** How an effect continues the story of a shipment's escrow. */
  function Chapter(t: Story, f: Effect, x: string): Story {
    match f
    case PayIn(ship, _, promo, wallet) => if x == ship then t.PaidIn(promo, wallet) else t
    case FundIn(ship, _, _, amount) => if x == ship then t.PaidIn(0, amount) else t
    case PayOut(ship, _, balance, fee) => if x == ship then t.PaidOut(fee, balance - fee) else t
    case PayBack(ship, _, promo, wallet) => if x == ship then t.PaidBack(promo, wallet) else t
    case _ => t
  }

  /** The keys an effect takes. */
  function Taken(f: Effect): set<(RefType, string)> {
    match f
    case NoEffect => {}
    case PayIn(ship, _, promo, wallet) => {(RefTypeForEscrowPay(Split(promo, wallet)), WalletPayRef(ship))}
    case FundIn(ship, order, _, _) => {(PspToWallet, PspWalletRef(ship, order)), (WalletToEscrow, WalletEscrowRef(ship, order))}
    case PayOut(ship, _, _, _) => {(EscrowRelease, ReleaseRef(ship))}
    case PayBack(ship, _, promo, wallet) =>
      (if promo > 0 then {(EscrowRefundPromoCredit, RefundPromoRef(ship, promo))} else {})
      + (if wallet > 0 then {(EscrowRefundWallet, RefundWalletRef(ship, wallet))} else {})
    case Plain(rt, ref, _, _, _) => {(rt, ref)}
  }

  /** A shipment's refund legs after an effect. */
  function WithLeg(legs: seq<int>, f: Effect, rt: RefType, x: string): seq<int> {
    match f
    case PayBack(ship, payer, promo, wallet) =>
      if x == ship && rt == EscrowRefundPromoCredit && promo > 0 then legs + [promo]
      else if x == ship && rt == EscrowRefundWallet && wallet > 0 then legs + [wallet]
      else legs
    case _ => legs
  }

  // ---- one journal at a time -------------------------------------------------------------------

  lemma NetAt(log: Log, j: Journal, sel: Selector)
    ensures Net(log + [j], sel) == Net(log, sel) + Flow(j.lines, sel)
  {}

  lemma StoryAt(log: Log, j: Journal, ship: string)
    ensures StoryOf(log + [j], ship) == Continue(StoryOf(log, ship), j, ship)
  {}

  lemma KeysAt(log: Log, j: Journal)
    ensures Keys(log + [j]) == Keys(log) + {(j.refType, j.refId)}
  {}

  lemma LegsAt(log: Log, j: Journal, rt: RefType, ship: string)
    ensures Legs(log + [j], rt, ship) ==
            if j.refType == rt && Debit(j.lines, Of(Escrow(ship))) != 0
            then Legs(log, rt, ship) + [Debit(j.lines, Of(Escrow(ship)))] else Legs(log, rt, ship)
  {}

  lemma TransferFlow(rt: RefType, ref: string, debited: Account, credited: Account, amount: int, sel: Selector)
    ensures var j := Transfer(rt, ref, debited, credited, amount);
            && Debit(j.lines, sel) == (if Selects(sel, debited) then amount else 0)
            && Credit(j.lines, sel) == (if Selects(sel, credited) then amount else 0)
  {
    var j := Transfer(rt, ref, debited, credited, amount);
    TwoLines(j.lines[0], j.lines[1]);
  }

  lemma TransferNet(log: Log, rt: RefType, ref: string, debited: Account, credited: Account, amount: int, a: Account)
    requires debited != credited
    ensures Net(log + [Transfer(rt, ref, debited, credited, amount)], Of(a)) ==
            Net(log, Of(a)) + (if a == credited then amount else if a == debited then -amount else 0)
  {
    TransferFlow(rt, ref, debited, credited, amount, Of(a));
    NetAt(log, Transfer(rt, ref, debited, credited, amount), Of(a));
  }

  /** The transfers that touch an escrow, apart from wallet payments and releases. */
  predicate EscrowTransfer(rt: RefType, debited: Account, credited: Account) {
    && (credited.Escrow? ==> rt == WalletToEscrow && debited.Wallet?)
    && (debited.Escrow? ==> (rt == EscrowRefundPromoCredit && credited.Promo?) || (rt == EscrowRefundWallet && credited.Wallet?))
  }

  function TransferChapter(t: Story, debited: Account, credited: Account, amount: int, ship: string): Story {
    if credited == Escrow(ship) then t.PaidIn(0, amount)
    else if debited == Escrow(ship) && credited.Promo? then t.PaidBack(amount, 0)
    else if debited == Escrow(ship) then t.PaidBack(0, amount)
    else t
  }

  lemma TransferContinues(t: Story, j: Journal, debited: Account, credited: Account, amount: int, ship: string)
    requires amount > 0 && EscrowTransfer(j.refType, debited, credited)
    requires forall sel :: Flow(j.lines, sel) == (if Selects(sel, credited) then amount else 0) - (if Selects(sel, debited) then amount else 0)
    ensures Continue(t, j, ship) == TransferChapter(t, debited, credited, amount, ship)
  {}

  lemma TransferStory(log: Log, rt: RefType, ref: string, debited: Account, credited: Account, amount: int, ship: string)
    requires amount > 0 && EscrowTransfer(rt, debited, credited)
    ensures StoryOf(log + [Transfer(rt, ref, debited, credited, amount)], ship) ==
            TransferChapter(StoryOf(log, ship), debited, credited, amount, ship)
  {
    var j := Transfer(rt, ref, debited, credited, amount);
    TransferSound(rt, ref, debited, credited, amount);
    TransferContinues(StoryOf(log, ship), j, debited, credited, amount, ship);
    StoryAt(log, j, ship);
  }

  lemma TransferLegs(log: Log, kind: RefType, ref: string, debited: Account, credited: Account, amount: int, rt: RefType, ship: string)
    requires amount > 0
    ensures Legs(log + [Transfer(kind, ref, debited, credited, amount)], rt, ship) ==
            if kind == rt && debited == Escrow(ship) then Legs(log, rt, ship) + [amount] else Legs(log, rt, ship)
  {
    TransferFlow(kind, ref, debited, credited, amount, Of(Escrow(ship)));
    LegsAt(log, Transfer(kind, ref, debited, credited, amount), rt, ship);
  }

  // ---- balances --------------------------------------------------------------------------------

  /** The log between the two legs of a refund. */
  lemma RefundLogs(log: Log, payer: string, ship: string, p: int, w: int) returns (mid: Log)
    requires p >= 0 && w >= 0
    ensures mid == if p > 0 then log + [RefundPromoLeg(ship, payer, p)] else log
    ensures log + RefundJournals(payer, ship, p, w) == if w > 0 then mid + [RefundWalletLeg(ship, payer, w)] else mid
  {
    mid := if p > 0 then log + [RefundPromoLeg(ship, payer, p)] else log;
    assert log + RefundJournals(payer, ship, p, w) == if w > 0 then mid + [RefundWalletLeg(ship, payer, w)] else mid;
  }

  lemma PayBackNet(log: Log, ship: string, payer: string, promo: int, wallet: int, a: Account)
    requires Sound(PayBack(ship, payer, promo, wallet))
    ensures Net(log + RefundJournals(payer, ship, promo, wallet), Of(a)) ==
            Net(log, Of(a)) + Delta(PayBack(ship, payer, promo, wallet), a)
  {
    var mid := RefundLogs(log, payer, ship, promo, wallet);
    if promo > 0 {
      TransferNet(log, EscrowRefundPromoCredit, RefundPromoRef(ship, promo), Escrow(ship), Promo(payer), promo, a);
    }
    if wallet > 0 {
      TransferNet(mid, EscrowRefundWallet, RefundWalletRef(ship, wallet), Escrow(ship), Wallet(payer), wallet, a);
    }
  }

  lemma FundInNet(log: Log, ship: string, order: string, payer: string, amount: int, a: Account)
    ensures Net(log + FundingJournals(ship, order, payer, amount), Of(a)) ==
            Net(log, Of(a)) + Delta(FundIn(ship, order, payer, amount), a)
  {
    var p, q := PspLeg(ship, order, payer, amount), EscrowLeg(ship, order, payer, amount);
    assert log + [p, q] == (log + [p]) + [q];
    TransferNet(log, p.refType, p.refId, PspClearing, Wallet(payer), amount, a);
    TransferNet(log + [p], q.refType, q.refId, Wallet(payer), Escrow(ship), amount, a);
  }

  lemma PayInNet(log: Log, ship: string, payer: string, promo: int, wallet: int, a: Account)
    requires Sound(PayIn(ship, payer, promo, wallet))
    ensures Net(log + Journals(PayIn(ship, payer, promo, wallet)), Of(a)) ==
            Net(log, Of(a)) + Delta(PayIn(ship, payer, promo, wallet), a)
  {
    PayLinesSums(payer, ship, Split(promo, wallet), promo + wallet);
    NetAt(log, PayJournal(payer, ship, Split(promo, wallet), promo + wallet), Of(a));
  }

  lemma PayOutNet(log: Log, ship: string, carrier: string, balance: int, fee: int, a: Account)
    requires Sound(PayOut(ship, carrier, balance, fee))
    ensures Net(log + Journals(PayOut(ship, carrier, balance, fee)), Of(a)) ==
            Net(log, Of(a)) + Delta(PayOut(ship, carrier, balance, fee), a)
  {
    ReleaseSound(ship, carrier, balance, fee);
    NetAt(log, ReleaseJournal(ship, carrier, balance, fee, balance - fee), Of(a));
  }

  lemma EffectNet(log: Log, f: Effect, a: Account)
    requires Sound(f)
    ensures Net(log + Journals(f), Of(a)) == Net(log, Of(a)) + Delta(f, a)
  {
    match f
    case NoEffect =>
      assert log + [] == log;
    case PayIn(ship, payer, promo, wallet) => PayInNet(log, ship, payer, promo, wallet, a);
    case FundIn(ship, order, payer, amount) => FundInNet(log, ship, order, payer, amount, a);
    case PayOut(ship, carrier, balance, fee) => PayOutNet(log, ship, carrier, balance, fee, a);
    case PayBack(ship, payer, promo, wallet) => PayBackNet(log, ship, payer, promo, wallet, a);
    case Plain(rt, ref, debited, credited, amount) =>
      TransferNet(log, rt, ref, debited, credited, amount, a);
  }

  // ---- stories ---------------------------------------------------------------------------------

  lemma PayInFlows(ship: string, payer: string, promo: int, wallet: int, x: string)
    requires Sound(PayIn(ship, payer, promo, wallet))
    ensures var lines := EscrowPayLines(payer, ship, Split(promo, wallet), promo + wallet);
            && Flow(lines, Of(Escrow(x))) == (if x == ship then promo + wallet else 0)
            && Flow(lines, OfKind(Promos)) == -promo
            && Flow(lines, OfKind(Wallets)) == -wallet
  {
    PayLinesSums(payer, ship, Split(promo, wallet), promo + wallet);
  }

  lemma PayInContinues(log: Log, j: Journal, promo: int, wallet: int, paid: bool, x: string)
    requires j.refType == WalletToEscrow || j.refType == PromoCreditToEscrow
    requires promo + wallet > 0 && Flow(j.lines, Of(Escrow(x))) == (if paid then promo + wallet else 0)
    requires Flow(j.lines, OfKind(Promos)) == -promo && Flow(j.lines, OfKind(Wallets)) == -wallet
    ensures StoryOf(log + [j], x) == if paid then StoryOf(log, x).PaidIn(promo, wallet) else StoryOf(log, x)
  {}

  lemma PayInStory(log: Log, f: Effect, x: string)
    requires f.PayIn? && Sound(f)
    ensures StoryOf(log + Journals(f), x) == Chapter(StoryOf(log, x), f, x)
  {
    PayInFlows(f.ship, f.payer, f.promo, f.wallet, x);
    PayInContinues(log, Journals(f)[0], f.promo, f.wallet, x == f.ship, x);
  }

  lemma PayOutFlows(ship: string, carrier: string, balance: int, fee: int, x: string)
    requires Sound(PayOut(ship, carrier, balance, fee))
    ensures var lines := ReleaseJournal(ship, carrier, balance, fee, balance - fee).lines;
            && Flow(lines, Of(Escrow(x))) == (if x == ship then -balance else 0)
            && Flow(lines, OfKind(Fee)) == fee
            && Flow(lines, OfKind(Wallets)) == balance - fee
  {
    ReleaseSound(ship, carrier, balance, fee);
  }

  lemma PayOutContinues(log: Log, j: Journal, balance: int, fee: int, paid: bool, x: string)
    requires j.refType == EscrowRelease && balance > 0 && Flow(j.lines, Of(Escrow(x))) == (if paid then -balance else 0)
    requires Flow(j.lines, OfKind(Fee)) == fee && Flow(j.lines, OfKind(Wallets)) == balance - fee
    ensures StoryOf(log + [j], x) == if paid then StoryOf(log, x).PaidOut(fee, balance - fee) else StoryOf(log, x)
  {}

  lemma PayOutStory(log: Log, f: Effect, x: string)
    requires f.PayOut? && Sound(f)
    ensures StoryOf(log + Journals(f), x) == Chapter(StoryOf(log, x), f, x)
  {
    PayOutFlows(f.ship, f.carrier, f.balance, f.fee, x);
    PayOutContinues(log, Journals(f)[0], f.balance, f.fee, x == f.ship, x);
  }

  lemma FundInStory(log: Log, f: Effect, x: string)
    requires f.FundIn? && Sound(f)
    ensures StoryOf(log + Journals(f), x) == Chapter(StoryOf(log, x), f, x)
  {
    var p, q := PspLeg(f.ship, f.order, f.payer, f.amount), EscrowLeg(f.ship, f.order, f.payer, f.amount);
    assert log + Journals(f) == (log + [p]) + [q];
    TransferStory(log, p.refType, p.refId, PspClearing, Wallet(f.payer), f.amount, x);
    TransferStory(log + [p], q.refType, q.refId, Wallet(f.payer), Escrow(f.ship), f.amount, x);
  }

  lemma PayBackStory(log: Log, f: Effect, x: string)
    requires f.PayBack? && Sound(f)
    ensures StoryOf(log + Journals(f), x) == Chapter(StoryOf(log, x), f, x)
  {
    var mid := RefundLogs(log, f.payer, f.ship, f.promo, f.wallet);
    PromoBackStory(log, mid, f.ship, f.payer, f.promo, x);
    WalletBackStory(mid, log + Journals(f), f.ship, f.payer, f.wallet, x);
    BackTwice(StoryOf(log, x), f.promo, f.wallet);
  }

  lemma BackTwice(t: Story, promo: int, wallet: int)
    ensures t.PaidBack(promo, 0).PaidBack(0, wallet) == t.PaidBack(promo, wallet)
  {}

  lemma PromoBackStory(log: Log, more: Log, ship: string, payer: string, promo: int, x: string)
    requires promo >= 0 && more == if promo > 0 then log + [RefundPromoLeg(ship, payer, promo)] else log
    ensures StoryOf(more, x) == if x == ship then StoryOf(log, x).PaidBack(promo, 0) else StoryOf(log, x)
  {
    if promo > 0 {
      TransferStory(log, EscrowRefundPromoCredit, RefundPromoRef(ship, promo), Escrow(ship), Promo(payer), promo, x);
    }
  }

  lemma WalletBackStory(log: Log, more: Log, ship: string, payer: string, wallet: int, x: string)
    requires wallet >= 0 && more == if wallet > 0 then log + [RefundWalletLeg(ship, payer, wallet)] else log
    ensures StoryOf(more, x) == if x == ship then StoryOf(log, x).PaidBack(0, wallet) else StoryOf(log, x)
  {
    if wallet > 0 {
      TransferStory(log, EscrowRefundWallet, RefundWalletRef(ship, wallet), Escrow(ship), Wallet(payer), wallet, x);
    }
  }

  lemma PlainStory(log: Log, f: Effect, x: string)
    requires f.Plain? && Sound(f)
    ensures StoryOf(log + Journals(f), x) == Chapter(StoryOf(log, x), f, x)
  {
    TransferStory(log, f.rt, f.ref, f.debited, f.credited, f.amount, x);
  }

  lemma EffectStory(log: Log, f: Effect, x: string)
    requires Sound(f)
    ensures StoryOf(log + Journals(f), x) == Chapter(StoryOf(log, x), f, x)
  {
    match f
    case NoEffect => assert log + [] == log;
    case PayIn(_, _, _, _) => PayInStory(log, f, x);
    case FundIn(_, _, _, _) => FundInStory(log, f, x);
    case PayOut(_, _, _, _) => PayOutStory(log, f, x);
    case PayBack(_, _, _, _) => PayBackStory(log, f, x);
    case Plain(_, _, _, _, _) => PlainStory(log, f, x);
  }

  // ---- keys and refund legs --------------------------------------------------------------------

  lemma PayBackKeys(log: Log, ship: string, payer: string, promo: int, wallet: int)
    requires Sound(PayBack(ship, payer, promo, wallet))
    ensures Keys(log + RefundJournals(payer, ship, promo, wallet)) == Keys(log) + Taken(PayBack(ship, payer, promo, wallet))
  {
    var mid := RefundLogs(log, payer, ship, promo, wallet);
    if promo > 0 {
      KeysAt(log, RefundPromoLeg(ship, payer, promo));
    }
    if wallet > 0 {
      KeysAt(mid, RefundWalletLeg(ship, payer, wallet));
    }
  }

  lemma EffectKeys(log: Log, f: Effect)
    requires Sound(f)
    ensures Keys(log + Journals(f)) == Keys(log) + Taken(f)
  {
    var js := Journals(f);
    match f
    case NoEffect =>
      assert log + [] == log;
    case FundIn(ship, order, payer, amount) =>
      assert log + js == (log + [js[0]]) + [js[1]];
      KeysAt(log, js[0]);
      KeysAt(log + [js[0]], js[1]);
    case PayBack(ship, payer, promo, wallet) => PayBackKeys(log, ship, payer, promo, wallet);
    case _ =>
      KeysAt(log, js[0]);
      assert js == [js[0]];
  }

  lemma PayBackLegs(log: Log, ship: string, payer: string, promo: int, wallet: int, rt: RefType, x: string)
    requires Sound(PayBack(ship, payer, promo, wallet)) && IsRefund(rt)
    ensures Legs(log + RefundJournals(payer, ship, promo, wallet), rt, x) ==
            WithLeg(Legs(log, rt, x), PayBack(ship, payer, promo, wallet), rt, x)
  {
    var mid := RefundLogs(log, payer, ship, promo, wallet);
    var promoLeg := rt == EscrowRefundPromoCredit && promo > 0 && x == ship;
    assert Legs(mid, rt, x) == if promoLeg then Legs(log, rt, x) + [promo] else Legs(log, rt, x) by {
      if promo > 0 {
        TransferLegs(log, EscrowRefundPromoCredit, RefundPromoRef(ship, promo), Escrow(ship), Promo(payer), promo, rt, x);
      }
    }
    if wallet > 0 {
      TransferLegs(mid, EscrowRefundWallet, RefundWalletRef(ship, wallet), Escrow(ship), Wallet(payer), wallet, rt, x);
    }
  }

  lemma EffectLegs(log: Log, f: Effect, rt: RefType, x: string)
    requires Sound(f) && IsRefund(rt)
    ensures Legs(log + Journals(f), rt, x) == WithLeg(Legs(log, rt, x), f, rt, x)
  {
    var js := Journals(f);
    match f
    case NoEffect =>
      assert log + [] == log;
    case FundIn(ship, order, payer, amount) =>
      assert log + js == (log + [js[0]]) + [js[1]];
      LegsAt(log, js[0], rt, x);
      LegsAt(log + [js[0]], js[1], rt, x);
    case PayBack(ship, payer, promo, wallet) => PayBackLegs(log, ship, payer, promo, wallet, rt, x);
    case _ =>
      LegsAt(log, js[0], rt, x);
      assert js == [js[0]];
  }

  // ---- validity --------------------------------------------------------------------------------

  lemma TransferBalanced(rt: RefType, ref: string, debited: Account, credited: Account, amount: int)
    requires amount > 0
    ensures Balanced(Transfer(rt, ref, debited, credited, amount).lines)
  {
    TransferSound(rt, ref, debited, credited, amount);
  }

  lemma PaidInBalanced(ship: string, payer: string, promo: int, wallet: int)
    requires Sound(PayIn(ship, payer, promo, wallet))
    ensures Balanced(EscrowPayLines(payer, ship, Split(promo, wallet), promo + wallet))
  {
    PayLinesSums(payer, ship, Split(promo, wallet), promo + wallet);
  }

  lemma EffectBalanced(f: Effect, i: nat)
    requires Sound(f) && i < |Journals(f)|
    ensures Balanced(Journals(f)[i].lines)
  {
    match f
    case NoEffect =>
    case PayIn(ship, payer, promo, wallet) => PaidInBalanced(ship, payer, promo, wallet);
    case FundIn(ship, order, payer, amount) =>
      TransferBalanced(PspToWallet, PspWalletRef(ship, order), PspClearing, Wallet(payer), amount);
      TransferBalanced(WalletToEscrow, WalletEscrowRef(ship, order), Wallet(payer), Escrow(ship), amount);
    case PayOut(ship, carrier, balance, fee) => ReleaseSound(ship, carrier, balance, fee);
    case PayBack(ship, payer, promo, wallet) =>
      if promo > 0 {
        TransferBalanced(EscrowRefundPromoCredit, RefundPromoRef(ship, promo), Escrow(ship), Promo(payer), promo);
      }
      if wallet > 0 {
        TransferBalanced(EscrowRefundWallet, RefundWalletRef(ship, wallet), Escrow(ship), Wallet(payer), wallet);
      }
    case Plain(rt, ref, debited, credited, amount) => TransferBalanced(rt, ref, debited, credited, amount);
  }

  /** Posting an effect's journals under keys that are all new keeps the keys unique. */
  lemma EffectUnique(log: Log, f: Effect)
    requires Sound(f) && UniqueKeys(log) && Taken(f) !! Keys(log)
    ensures UniqueKeys(log + Journals(f))
  {
    var js := Journals(f);
    match f
    case NoEffect =>
      assert log + [] == log;
    case FundIn(ship, order, payer, amount) =>
      assert (js[0].refType, js[0].refId) in Taken(f) && (js[1].refType, js[1].refId) in Taken(f);
      AppendUnique(log, js[0]);
      KeysAt(log, js[0]);
      AppendUnique(log + [js[0]], js[1]);
      assert log + js == (log + [js[0]]) + [js[1]];
    case PayBack(ship, payer, promo, wallet) =>
      var mid := RefundLogs(log, payer, ship, promo, wallet);
      if promo > 0 {
        assert (EscrowRefundPromoCredit, RefundPromoRef(ship, promo)) in Taken(f);
        AppendUnique(log, RefundPromoLeg(ship, payer, promo));
        KeysAt(log, RefundPromoLeg(ship, payer, promo));
      }
      if wallet > 0 {
        assert (EscrowRefundWallet, RefundWalletRef(ship, wallet)) in Taken(f);
        AppendUnique(mid, RefundWalletLeg(ship, payer, wallet));
      }
    case _ =>
      assert js == [js[0]] && (js[0].refType, js[0].refId) in Taken(f);
      AppendUnique(log, js[0]);
  }

  /** An effect changes what an escrow holds by what its chapter says. */
  lemma EscrowDelta(t: Story, f: Effect, x: string)
    requires Sound(f)
    ensures Chapter(t, f, x).Held() == t.Held() + Delta(f, Escrow(x))
  {}

  // ---- what has left an escrow -----------------------------------------------------------------

  /** What an effect takes out of a shipment's escrow. */
  function TakenOut(f: Effect, x: string): int {
    match f
    case PayOut(ship, _, balance, _) => if x == ship then balance else 0
    case PayBack(ship, _, promo, wallet) => if x == ship then promo + wallet else 0
    case _ => 0
  }

  lemma DebitsAt(log: Log, j: Journal, sel: Selector)
    ensures Debits(log + [j], sel) == Debits(log, sel) + Debit(j.lines, sel)
  {}

  lemma TransferDebits(log: Log, rt: RefType, ref: string, debited: Account, credited: Account, amount: int, a: Account)
    ensures Debits(log + [Transfer(rt, ref, debited, credited, amount)], Of(a)) ==
            Debits(log, Of(a)) + (if a == debited then amount else 0)
  {
    TransferFlow(rt, ref, debited, credited, amount, Of(a));
    DebitsAt(log, Transfer(rt, ref, debited, credited, amount), Of(a));
  }

  lemma PayInDebits(log: Log, ship: string, payer: string, promo: int, wallet: int, x: string)
    ensures Debits(log + [PayJournal(payer, ship, Split(promo, wallet), promo + wallet)], Of(Escrow(x))) == Debits(log, Of(Escrow(x)))
  {
    var j := PayJournal(payer, ship, Split(promo, wallet), promo + wallet);
    PayLinesSums(payer, ship, Split(promo, wallet), promo + wallet);
    assert Debit(j.lines, Of(Escrow(x))) == 0;
    DebitsAt(log, j, Of(Escrow(x)));
  }

  lemma PayOutDebits(log: Log, ship: string, carrier: string, balance: int, fee: int, x: string)
    ensures Debits(log + [ReleaseJournal(ship, carrier, balance, fee, balance - fee)], Of(Escrow(x))) ==
            Debits(log, Of(Escrow(x))) + (if x == ship then balance else 0)
  {
    var j := ReleaseJournal(ship, carrier, balance, fee, balance - fee);
    ThreeLines(j.lines[0], j.lines[1], j.lines[2]);
    DebitsAt(log, j, Of(Escrow(x)));
  }

  lemma PayBackDebits(log: Log, ship: string, payer: string, promo: int, wallet: int, x: string)
    requires Sound(PayBack(ship, payer, promo, wallet))
    ensures Debits(log + RefundJournals(payer, ship, promo, wallet), Of(Escrow(x))) ==
            Debits(log, Of(Escrow(x))) + (if x == ship then promo + wallet else 0)
  {
    var mid := RefundLogs(log, payer, ship, promo, wallet);
    assert Debits(mid, Of(Escrow(x))) == Debits(log, Of(Escrow(x))) + (if x == ship then promo else 0) by {
      if promo > 0 {
        TransferDebits(log, EscrowRefundPromoCredit, RefundPromoRef(ship, promo), Escrow(ship), Promo(payer), promo, Escrow(x));
      }
    }
    if wallet > 0 {
      TransferDebits(mid, EscrowRefundWallet, RefundWalletRef(ship, wallet), Escrow(ship), Wallet(payer), wallet, Escrow(x));
    }
  }

  lemma EffectDebits(log: Log, f: Effect, x: string)
    requires Sound(f)
    ensures Debits(log + Journals(f), Of(Escrow(x))) == Debits(log, Of(Escrow(x))) + TakenOut(f, x)
  {
    match f
    case NoEffect => assert log + [] == log;
    case FundIn(ship, order, payer, amount) =>
      var p, q := PspLeg(ship, order, payer, amount), EscrowLeg(ship, order, payer, amount);
      assert log + Journals(f) == (log + [p]) + [q];
      TransferDebits(log, p.refType, p.refId, PspClearing, Wallet(payer), amount, Escrow(x));
      TransferDebits(log + [p], q.refType, q.refId, Wallet(payer), Escrow(ship), amount, Escrow(x));
    case PayBack(ship, payer, promo, wallet) => PayBackDebits(log, ship, payer, promo, wallet, x);
    case Plain(rt, ref, debited, credited, amount) =>
      TransferDebits(log, rt, ref, debited, credited, amount, Escrow(x));
    case PayIn(ship, payer, promo, wallet) => PayInDebits(log, ship, payer, promo, wallet, x);
    case PayOut(ship, carrier, balance, fee) => PayOutDebits(log, ship, carrier, balance, fee, x);
  }

  lemma OutGrows(t: Story, f: Effect, x: string)
    requires Sound(f)
    ensures Chapter(t, f, x).Out() == t.Out() + TakenOut(f, x)
  {}

  /** A log that tells a shipment's story goes on telling it. */
  lemma EffectTells(log: Log, f: Effect, x: string)
    requires Sound(f) && Net(log, Of(Escrow(x))) == StoryOf(log, x).Held() && Debits(log, Of(Escrow(x))) == StoryOf(log, x).Out()
    ensures var t := StoryOf(log + Journals(f), x);
            && t == Chapter(StoryOf(log, x), f, x)
            && Net(log + Journals(f), Of(Escrow(x))) == t.Held() && Debits(log + Journals(f), Of(Escrow(x))) == t.Out()
  {
    EffectStory(log, f, x);
    EffectNet(log, f, Escrow(x));
    EscrowDelta(StoryOf(log, x), f, x);
    EffectDebits(log, f, x);
    OutGrows(StoryOf(log, x), f, x);
  }
}
