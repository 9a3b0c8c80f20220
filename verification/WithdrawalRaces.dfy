/** Interleaved withdrawals: each change of status is a load and a later write by id, whatever the row has become, between one
    another and between all other use cases. Each load and each write is atomic; the writes of a rejection and of a failure
    post their reversal in the same transaction. */
module WithdrawalRaces {
  import opened Results
  import opened Int64
  import opened Accounts
  import opened Refs
  import opened Ledger
  import opened Postings
  import opened Domain
  import opened Machine

  datatype Kind = Approving | Sending | Settling | Completing | Failing | Rejecting
  {
    /** The statuses in which the loaded row is taken further. */
    function From(): set<WithdrawalStatus> {
      match this
      case Approving => {WPending}
      case Sending => {Approved}
      case Settling => {SentToBank}
      case Completing => {WPending}
      case Failing => {Approved, SentToBank}
      case Rejecting => {WPending}
    }

    /** The status that is written. */
    function To(): WithdrawalStatus {
      match this
      case Approving => Approved
      case Sending => SentToBank
      case Settling => Settled
      case Completing => Completed
      case Failing => WFailed
      case Rejecting => Rejected
    }

    /** The key of the journal that gives the reserve back, for the two that do. */
    function Key(id: string): Option<string> {
      match this
      case Failing => Some(FailRef(id))
      case Rejecting => Some(RejectRef(id))
      case _ => None
    }
  }

  /** How far one call has come, with the row it has loaded. */
  datatype Call = Loading(kind: Kind, id: string) | Writing(kind: Kind, id: string, loaded: WithdrawalRow) | Ended

  datatype Race = Race(state: State, calls: seq<Call>)

  const START := Race(EMPTY, [])

  datatype Action =
    | Whole(command: Command)
    | New(kind: Kind, id: string)
    | Resume(call: nat, commits: bool)
    | Crash(call: nat)

  function Load(s: State, kind: Kind, id: string): Call {
    if id in s.withdrawals && s.withdrawals[id].status in kind.From() then Writing(kind, id, s.withdrawals[id]) else Ended
  }

  function GiveBackJournal(id: string, key: string, w: WithdrawalRow): Journal {
    Transfer(WithdrawalRejectReversal, key, PayoutClearing, Wallet(w.user), w.amount)
  }

  /** The reversal with the loaded user and amount, if the kind has one, and the update by id. */
  function Write(s: State, kind: Kind, id: string, loaded: WithdrawalRow, commits: bool): State {
    if !commits || id !in s.withdrawals then s
    else
      var rows := s.withdrawals[id := s.withdrawals[id].(status := kind.To())];
      match kind.Key(id)
      case None => s.(withdrawals := rows)
      case Some(key) =>
        var posted := Post(s.log, GiveBackJournal(id, key, loaded));
        if posted.Err? then s else s.(log := posted.value, withdrawals := rows)
  }

  /** The next piece of one call; commits says whether its write is committed. */
  function Piece(s: State, call: Call, commits: bool): (State, Call) {
    match call
    case Loading(kind, id) => (s, Load(s, kind, id))
    case Writing(kind, id, loaded) => (Write(s, kind, id, loaded, commits), Ended)
    case Ended => (s, Ended)
  }

  function Act(r: Race, a: Action): Race {
    match a
    case Whole(c) => r.(state := Execute(r.state, c).state)
    case New(kind, id) => r.(calls := r.calls + [Loading(kind, id)])
    case Resume(i, commits) =>
      if i >= |r.calls| then r
      else
        var (s, call) := Piece(r.state, r.calls[i], commits);
        Race(s, r.calls[i := call])
    case Crash(i) => if i >= |r.calls| then r else r.(calls := r.calls[i := Ended])
  }

  function Interleave(r: Race, actions: seq<Action>): Race {
    if actions == [] then r else Act(Interleave(r, actions[..|actions| - 1]), actions[|actions| - 1])
  }

  // ---- what the other use cases leave alone ----------------------------------------------------

  /** More journals, with unique keys, and none that gives a reserve back. */
  ghost predicate Extends(log: Log, more: Log) {
    && log <= more && (UniqueKeys(log) ==> UniqueKeys(more))
    && forall i :: |log| <= i < |more| ==> more[i].refType != WithdrawalRejectReversal
  }

  lemma PostExtends(log: Log, j: Journal)
    requires j.refType != WithdrawalRejectReversal && Post(log, j).Ok?
    ensures Extends(log, Post(log, j).value)
  {
    if UniqueKeys(log) {
      AppendUnique(log, j);
    }
  }

  lemma {:induction false} PostAllExtends(log: Log, js: seq<Journal>)
    requires forall j :: j in js ==> j.refType != WithdrawalRejectReversal
    requires PostAll(log, js).Ok?
    ensures Extends(log, PostAll(log, js).value)
    decreases |js|
  {
    if js != [] {
      PostExtends(log, js[0]);
      PostAllExtends(Post(log, js[0]).value, js[1..]);
    }
  }

  /** Withdrawals and the journals that give reserves back are as they were. */
  ghost predicate Apart(s: State, t: State) {
    t.withdrawals == s.withdrawals && Extends(s.log, t.log)
  }

  lemma PayApart(s: State, ship: string, payer: string, amount: int64)
    ensures Apart(s, PayFromWallet(s, ship, payer, amount).state)
  {
    if PayFromWallet(s, ship, payer, amount).result.Ok? {
      var promo, wallet := Balance(s.log, Of(Promo(payer))), Balance(s.log, Of(Wallet(payer)));
      var split := ResolvePayerFundingSplit(amount, promo.value, wallet.value).value;
      PostExtends(s.log, PayJournal(payer, ship, split, split.Total()));
    }
  }

  lemma FundApart(s: State, ship: string, order: string)
    ensures Apart(s, FundEscrow(s, ship, order).state)
  {
    if FundEscrow(s, ship, order).result.Ok? {
      var e := s.escrows[ship];
      PostAllExtends(s.log, [PspLeg(ship, order, e.payer, e.amount), EscrowLeg(ship, order, e.payer, e.amount)]);
    }
  }

  lemma ReleaseApart(s: State, ship: string, product: int64)
    ensures Apart(s, ReleaseEscrow(s, ship, product).state)
  {
    if ReleaseEscrow(s, ship, product).result.Ok? {
      var balance := Balance(s.log, Of(Escrow(ship))).value;
      var fee := CalcPlatformFee(balance, product);
      PostExtends(s.log, ReleaseJournal(ship, s.escrows[ship].carrier, balance, fee, Sub(balance, fee)));
    }
  }

  lemma RefundApart(s: State, ship: string, e: EscrowRow, balance: int, refund: int)
    requires refund >= 0
    ensures Apart(s, PayRefund(s, ship, e, balance, refund).state)
  {
    var (p, w) := RefundAllocation(refund, e.promoCreditFunded);
    if PostAll(s.log, RefundJournals(e.payer, ship, p, w)).Ok? {
      PostAllExtends(s.log, RefundJournals(e.payer, ship, p, w));
    }
  }

  lemma EscrowApart(s: State, u: UseCase)
    requires OnEscrow(u)
    ensures Apart(s, Perform(s, u).state)
  {
    match u
    case DoPayFromWallet(ship, payer, amount) => PayApart(s, ship, payer, amount);
    case DoFundEscrow(ship, order) => FundApart(s, ship, order);
    case DoReleaseEscrow(ship, product) => ReleaseApart(s, ship, product);
    case DoRefundEscrow(ship) =>
      if RefundEscrow(s, ship).result.Ok? {
        var balance := Balance(s.log, Of(Escrow(ship))).value;
        RefundApart(s, ship, s.escrows[ship], balance, balance);
      }
    case DoPartialRefundEscrow(ship, refund) =>
      if PartialRefundEscrow(s, ship, refund).result.Ok? {
        RefundApart(s, ship, s.escrows[ship], Balance(s.log, Of(Escrow(ship))).value, refund);
      }
    case _ =>
  }

  lemma ConfirmApart(s: State, id: string)
    ensures Apart(s, ConfirmOrder(s, id).state)
  {
    if ConfirmOrder(s, id).result.Ok? && s.orders[id].status != Confirmed {
      var o := s.orders[id];
      match o.purpose
      case Shipment => FundApart(s, o.shipmentId, id);
      case TopUp => PostExtends(s.log, TopupJournal(id, o.payer, o.amount));
    }
  }

  lemma VerifyApart(s: State, id: string, purpose: Option<Purpose>, reply: Option<int64>, commits: bool)
    ensures Apart(s, VerifyOrder(s, id, purpose, reply, commits).state)
  {
    ConfirmApart(s, id);
  }

  lemma CallbackApart(s: State, id: string, other: string, success: bool, reply: Option<int64>, commits: bool, updates: bool)
    ensures Apart(s, HandleCallback(s, id, other, success, reply, commits, updates).state)
  {
    VerifyApart(s, id, None, reply, commits);
  }

  lemma CreationApart(s: State, c: Command)
    requires c.useCase.DoCreatePaymentOrder? || c.useCase.DoCreateWalletTopupOrder?
    ensures Apart(s, Execute(s, c).state)
  {}

  lemma OrderApart(s: State, c: Command)
    requires OnOrder(c.useCase)
    ensures Apart(s, Execute(s, c).state)
  {
    match c.useCase
    case DoVerifyOrder(id, purpose, reply) => VerifyApart(s, id, purpose, reply, c.commits);
    case DoHandleCallback(id, other, success, reply, updates) => CallbackApart(s, id, other, success, reply, c.commits, updates);
    case _ => CreationApart(s, c);
  }

  lemma GrantApart(s: State, c: Command)
    requires OnGrant(c.useCase)
    ensures Apart(s, Execute(s, c).state)
  {
    match c.useCase
    case DoGrantCredit(id, user, amount, _, _, _) =>
      ExecuteGrant(s, c);
      if Post(s.log, GrantJournal(id, user, amount)).Ok? {
        PostExtends(s.log, GrantJournal(id, user, amount));
      }
    case DoReverseCreditGrant(id, _, _) =>
      ExecuteReversal(s, c);
      if id in s.grants && Post(s.log, ReverseJournal(id, s.grants[id].user, s.grants[id].amount)).Ok? {
        PostExtends(s.log, ReverseJournal(id, s.grants[id].user, s.grants[id].amount));
      }
  }

  /** No other use case writes a withdrawal or gives a reserve back, from any state whatever. */
  lemma OthersApart(s: State, c: Command)
    requires OnEscrow(c.useCase) || OnOrder(c.useCase) || OnGrant(c.useCase)
    ensures Apart(s, Execute(s, c).state)
  {
    if OnEscrow(c.useCase) {
      EscrowApart(s, c.useCase);
    } else if OnOrder(c.useCase) {
      OrderApart(s, c);
    } else {
      GrantApart(s, c);
    }
  }

  // ---- whole use cases are their pieces --------------------------------------------------------

  /** The kind of a status change, unless its arguments are refused before anything is loaded. */
  function KindOfUse(u: UseCase): Option<Kind> {
    match u
    case DoApproveWithdrawal(id) => if id == "" then None else Some(Approving)
    case DoMarkWithdrawalSent(id, ref, channel, receipt) =>
      if id == "" || ref == "" || channel == "" || receipt == "" then None else Some(Sending)
    case DoSettleWithdrawal(id) => if id == "" then None else Some(Settling)
    case DoProcessWithdrawal(id, ref, channel, receipt) =>
      if id == "" || ref == "" || channel == "" || receipt == "" then None else Some(Completing)
    case DoFailWithdrawal(id, reason) => if id == "" || reason == "" then None else Some(Failing)
    case DoRejectWithdrawal(id) => if id == "" then None else Some(Rejecting)
    case _ => None
  }

  predicate OnStatus(u: UseCase) {
    u.DoApproveWithdrawal? || u.DoMarkWithdrawalSent? || u.DoSettleWithdrawal? || u.DoProcessWithdrawal?
    || u.DoFailWithdrawal? || u.DoRejectWithdrawal?
  }

  /** A load and the write that it allows, with nothing in between. */
  function Uninterrupted(s: State, kind: Kind, id: string, commits: bool): State {
    match Load(s, kind, id)
    case Writing(_, _, loaded) => Write(s, kind, id, loaded, commits)
    case _ => s
  }

  lemma MovePieces(s: State, id: string, from: WithdrawalStatus, kind: Kind, commits: bool)
    requires kind.From() == {from} && kind.Key(id).None?
    ensures Machine.Ended(s, MoveWithdrawal(s, id, from, kind.To()), commits).state == Uninterrupted(s, kind, id, commits)
  {}

  lemma FailPieces(s: State, id: string, reason: string, commits: bool)
    requires id != "" && reason != ""
    ensures Machine.Ended(s, FailWithdrawal(s, id, reason), commits).state == Uninterrupted(s, Failing, id, commits)
  {}

  lemma RejectPieces(s: State, id: string, commits: bool)
    requires id != ""
    ensures Machine.Ended(s, RejectWithdrawal(s, id), commits).state == Uninterrupted(s, Rejecting, id, commits)
  {}

  /** A withdrawal's use case in the database's hands. */
  lemma EndedWrapped(s: State, d: Done<WithdrawalRow>, commits: bool)
    ensures Machine.Ended(s, OfWithdrawal(d), commits).state == Machine.Ended(s, d, commits).state
  {}

  lemma PlainPieces(s: State, c: Command)
    requires OnStatus(c.useCase) && !c.useCase.DoFailWithdrawal? && !c.useCase.DoRejectWithdrawal?
    requires KindOfUse(c.useCase).Some?
    ensures Execute(s, c).state == Uninterrupted(s, KindOfUse(c.useCase).value, c.useCase.id, c.commits)
  {
    match c.useCase
    case DoApproveWithdrawal(id) =>
      MovePieces(s, id, WPending, Approving, c.commits);
      EndedWrapped(s, ApproveWithdrawal(s, id), c.commits);
    case DoMarkWithdrawalSent(id, ref, channel, receipt) =>
      MovePieces(s, id, Approved, Sending, c.commits);
      EndedWrapped(s, MarkWithdrawalSent(s, id, ref, channel, receipt), c.commits);
    case DoSettleWithdrawal(id) =>
      MovePieces(s, id, SentToBank, Settling, c.commits);
      EndedWrapped(s, SettleWithdrawal(s, id), c.commits);
    case DoProcessWithdrawal(id, ref, channel, receipt) =>
      MovePieces(s, id, WPending, Completing, c.commits);
      EndedWrapped(s, ProcessWithdrawal(s, id, ref, channel, receipt), c.commits);
  }

  lemma ReversalPieces(s: State, c: Command)
    requires (c.useCase.DoFailWithdrawal? || c.useCase.DoRejectWithdrawal?) && KindOfUse(c.useCase).Some?
    ensures Execute(s, c).state == Uninterrupted(s, KindOfUse(c.useCase).value, c.useCase.id, c.commits)
  {
    match c.useCase
    case DoFailWithdrawal(id, reason) =>
      FailPieces(s, id, reason, c.commits);
      EndedWrapped(s, FailWithdrawal(s, id, reason), c.commits);
    case DoRejectWithdrawal(id) =>
      RejectPieces(s, id, c.commits);
      EndedWrapped(s, RejectWithdrawal(s, id), c.commits);
  }

  lemma RefusedPieces(s: State, c: Command)
    requires OnStatus(c.useCase) && KindOfUse(c.useCase).None?
    ensures Execute(s, c).state == s
  {}

  /** Each whole use case is its two pieces run one after the other. */
  lemma WholeIsPieces(s: State, c: Command)
    requires OnStatus(c.useCase)
    ensures Execute(s, c).state ==
            if KindOfUse(c.useCase).Some? then Uninterrupted(s, KindOfUse(c.useCase).value, c.useCase.id, c.commits) else s
  {
    if KindOfUse(c.useCase).None? {
      RefusedPieces(s, c);
    } else if c.useCase.DoFailWithdrawal? || c.useCase.DoRejectWithdrawal? {
      ReversalPieces(s, c);
    } else {
      PlainPieces(s, c);
    }
  }

  // ---- one withdrawal --------------------------------------------------------------------------

  predicate RejectPosted(log: Log, id: string) {
    (WithdrawalRejectReversal, RejectRef(id)) in Keys(log)
  }

  predicate FailPosted(log: Log, id: string) {
    (WithdrawalRejectReversal, FailRef(id)) in Keys(log)
  }

  /** Row and reversals of a withdrawal are as they were. */
  ghost predicate SameFor(s: State, t: State, id: string) {
    && (id in t.withdrawals <==> id in s.withdrawals)
    && (id in s.withdrawals ==> t.withdrawals[id] == s.withdrawals[id])
    && RejectPosted(t.log, id) == RejectPosted(s.log, id) && FailPosted(t.log, id) == FailPosted(s.log, id)
  }

  lemma ExtendsKeys(log: Log, more: Log, ref: string)
    requires Extends(log, more)
    ensures (WithdrawalRejectReversal, ref) in Keys(more) <==> (WithdrawalRejectReversal, ref) in Keys(log)
  {
    KeysAreKeys(log, WithdrawalRejectReversal, ref);
    KeysAreKeys(more, WithdrawalRejectReversal, ref);
    if (WithdrawalRejectReversal, ref) in Keys(log) {
      var i :| 0 <= i < |log| && log[i].refType == WithdrawalRejectReversal && log[i].refId == ref;
      assert more[i].refType == WithdrawalRejectReversal;
    }
  }

  lemma ApartSame(s: State, t: State, id: string)
    requires Apart(s, t)
    ensures SameFor(s, t, id)
  {
    ExtendsKeys(s.log, t.log, RejectRef(id));
    ExtendsKeys(s.log, t.log, FailRef(id));
  }

  /** A write that went through. */
  predicate Wrote(s: State, t: State, kind: Kind, id: string) {
    id in s.withdrawals && t.withdrawals == s.withdrawals[id := s.withdrawals[id].(status := kind.To())]
  }

  /** What a write does: nothing, or the status and, for the two that give the reserve back, the reversal. */
  lemma WriteDoes(s: State, kind: Kind, id: string, loaded: WithdrawalRow, commits: bool)
    ensures var t := Write(s, kind, id, loaded, commits);
            || t == s
            || (Wrote(s, t, kind, id)
                && t.log == s.log + (if kind.Key(id).Some? then [GiveBackJournal(id, kind.Key(id).value, loaded)] else [])
                && (kind.Key(id).Some? ==> Post(s.log, GiveBackJournal(id, kind.Key(id).value, loaded)).Ok?))
  {
    assert s.log + [] == s.log;
  }

  lemma WriteElsewhere(s: State, kind: Kind, id: string, loaded: WithdrawalRow, commits: bool, x: string)
    requires x != id
    ensures SameFor(s, Write(s, kind, id, loaded, commits), x)
  {
    OneIdRefsInjective(id, x);
    OneIdRefsInjective(x, id);
    if kind.Key(id).Some? {
      Append(s.log, GiveBackJournal(id, kind.Key(id).value, loaded));
    }
  }

  lemma WriteHere(s: State, kind: Kind, id: string, loaded: WithdrawalRow, commits: bool)
    requires id in s.withdrawals
    ensures var t := Write(s, kind, id, loaded, commits);
            || t == s
            || (Wrote(s, t, kind, id)
                && RejectPosted(t.log, id) == (RejectPosted(s.log, id) || kind == Rejecting)
                && FailPosted(t.log, id) == (FailPosted(s.log, id) || kind == Failing))
  {
    OneIdRefsInjective(id, id);
    if kind.Key(id).Some? {
      Append(s.log, GiveBackJournal(id, kind.Key(id).value, loaded));
    }
  }

  /** A write of a positive amount whose key is free goes through. */
  lemma WriteGoes(s: State, kind: Kind, id: string, loaded: WithdrawalRow)
    requires id in s.withdrawals && loaded.amount > 0
    requires kind.Key(id).Some? ==> (WithdrawalRejectReversal, kind.Key(id).value) !in Keys(s.log)
    ensures var t := Write(s, kind, id, loaded, true);
            && Wrote(s, t, kind, id)
            && RejectPosted(t.log, id) == (RejectPosted(s.log, id) || kind == Rejecting)
            && FailPosted(t.log, id) == (FailPosted(s.log, id) || kind == Failing)
  {
    OneIdRefsInjective(id, id);
    if kind.Key(id).Some? {
      Append(s.log, GiveBackJournal(id, kind.Key(id).value, loaded));
      TransferSound(WithdrawalRejectReversal, kind.Key(id).value, PayoutClearing, Wallet(loaded.user), loaded.amount);
    }
  }

  /** A new withdrawal, or none. */
  lemma CreateDoes(s: State, c: Command)
    requires c.useCase.DoCreateWithdrawal?
    ensures var t := Execute(s, c).state;
            || t == s
            || (c.useCase.uid !in s.withdrawals && c.useCase.amount > 0 && Extends(s.log, t.log)
                && t.withdrawals == s.withdrawals[c.useCase.uid := WithdrawalRow(c.useCase.user, c.useCase.amount, WPending)])
  {
    var u := c.useCase;
    if Post(s.log, ReserveJournal(u.uid, u.user, u.amount)).Ok? {
      PostExtends(s.log, ReserveJournal(u.uid, u.user, u.amount));
    }
  }

  /** What a whole use case does to a withdrawal that exists: nothing, or the pieces of a change of its status. */
  lemma WholeDoes(s: State, c: Command, id: string)
    requires id in s.withdrawals
    ensures var t := Execute(s, c).state;
            || SameFor(s, t, id)
            || (KindOfUse(c.useCase).Some? && c.useCase.id == id && s.withdrawals[id].status in KindOfUse(c.useCase).value.From()
                && t == Write(s, KindOfUse(c.useCase).value, id, s.withdrawals[id], c.commits))
  {
    var u, t := c.useCase, Execute(s, c).state;
    if OnStatus(u) {
      WholeIsPieces(s, c);
      if KindOfUse(u).Some? && u.id != id && u.id in s.withdrawals {
        WriteElsewhere(s, KindOfUse(u).value, u.id, s.withdrawals[u.id], c.commits, id);
      }
    } else if u.DoCreateWithdrawal? {
      CreateDoes(s, c);
      if t != s {
        ExtendsKeys(s.log, t.log, RejectRef(id));
        ExtendsKeys(s.log, t.log, FailRef(id));
      }
    } else {
      OthersApart(s, c);
      ApartSame(s, t, id);
    }
  }

  // ---- the invariant ---------------------------------------------------------------------------

  /** A withdrawal has a positive amount, and no reversal while it is pending or before it exists. */
  ghost predicate RowOk(s: State, id: string) {
    && (id in s.withdrawals ==> s.withdrawals[id].amount > 0)
    && (id !in s.withdrawals || s.withdrawals[id].status == WPending ==> !RejectPosted(s.log, id) && !FailPosted(s.log, id))
  }

  /** A row in the hands of a call is the row as it still is, but for its status. */
  ghost predicate HandOk(s: State, call: Call) {
    call.Writing? ==>
      call.id in s.withdrawals && call.loaded == s.withdrawals[call.id].(status := call.loaded.status)
  }

  /** The journal is one of the two reversals of this withdrawal. */
  predicate Reverses(j: Journal, id: string, w: WithdrawalRow) {
    j == RejectReversal(id, w.user, w.amount) || j == FailReversal(id, w.user, w.amount)
  }

  /** Keys are unique, and every journal that gives a reserve back is a reversal of a withdrawal for its user and amount. */
  ghost predicate LogOk(s: State) {
    && UniqueKeys(s.log)
    && forall i :: 0 <= i < |s.log| && s.log[i].refType == WithdrawalRejectReversal ==>
         exists id :: id in s.withdrawals && Reverses(s.log[i], id, s.withdrawals[id])
  }

  ghost predicate RaceOk(r: Race) {
    && (forall id :: RowOk(r.state, id))
    && (forall i :: 0 <= i < |r.calls| ==> HandOk(r.state, r.calls[i]))
    && LogOk(r.state)
  }

  /** Rows stay, and nothing but their status changes. */
  ghost predicate Persist(s: State, t: State) {
    forall id :: id in s.withdrawals ==>
      id in t.withdrawals && t.withdrawals[id] == s.withdrawals[id].(status := t.withdrawals[id].status)
  }

  lemma WritePersists(s: State, kind: Kind, id: string, loaded: WithdrawalRow, commits: bool)
    ensures Persist(s, Write(s, kind, id, loaded, commits))
  {
    WriteDoes(s, kind, id, loaded, commits);
  }

  lemma WholePersists(s: State, c: Command)
    ensures Persist(s, Execute(s, c).state)
  {
    forall id | id in s.withdrawals
      ensures var t := Execute(s, c).state;
              id in t.withdrawals && t.withdrawals[id] == s.withdrawals[id].(status := t.withdrawals[id].status)
    {
      WholeDoes(s, c, id);
      if KindOfUse(c.useCase).Some? {
        WritePersists(s, KindOfUse(c.useCase).value, id, s.withdrawals[id], c.commits);
      }
    }
  }

  lemma SameRowOk(s: State, t: State, id: string)
    requires RowOk(s, id) && SameFor(s, t, id)
    ensures RowOk(t, id)
  {}

  lemma WriteRowOk(s: State, kind: Kind, x: string, loaded: WithdrawalRow, commits: bool, id: string)
    requires RowOk(s, id)
    ensures RowOk(Write(s, kind, x, loaded, commits), id)
  {
    if x == id && id in s.withdrawals {
      WriteHere(s, kind, id, loaded, commits);
    } else if x != id {
      WriteElsewhere(s, kind, x, loaded, commits, id);
      SameRowOk(s, Write(s, kind, x, loaded, commits), id);
    }
  }

  lemma NewRowOk(s: State, c: Command, id: string)
    requires RowOk(s, id) && c.useCase.DoCreateWithdrawal?
    ensures RowOk(Execute(s, c).state, id)
  {
    CreateDoes(s, c);
    var t := Execute(s, c).state;
    if t != s {
      ExtendsKeys(s.log, t.log, RejectRef(id));
      ExtendsKeys(s.log, t.log, FailRef(id));
    }
  }

  lemma WholeRowOk(s: State, c: Command, id: string)
    requires RowOk(s, id)
    ensures RowOk(Execute(s, c).state, id)
  {
    var u := c.useCase;
    if OnStatus(u) {
      WholeIsPieces(s, c);
      if KindOfUse(u).Some? && u.id in s.withdrawals {
        WriteRowOk(s, KindOfUse(u).value, u.id, s.withdrawals[u.id], c.commits, id);
      }
    } else if u.DoCreateWithdrawal? {
      NewRowOk(s, c, id);
    } else {
      OthersApart(s, c);
      ApartSame(s, Execute(s, c).state, id);
      SameRowOk(s, Execute(s, c).state, id);
    }
  }

  lemma ExtendsLogOk(s: State, t: State)
    requires LogOk(s) && Extends(s.log, t.log) && Persist(s, t)
    ensures LogOk(t)
  {
    forall i | 0 <= i < |t.log| && t.log[i].refType == WithdrawalRejectReversal
      ensures exists id :: id in t.withdrawals && Reverses(t.log[i], id, t.withdrawals[id])
    {
      assert i < |s.log| && t.log[i] == s.log[i];
      var id :| id in s.withdrawals && Reverses(s.log[i], id, s.withdrawals[id]);
      assert Reverses(t.log[i], id, t.withdrawals[id]);
    }
  }

  lemma WriteLogOk(s: State, kind: Kind, id: string, loaded: WithdrawalRow, commits: bool)
    requires LogOk(s) && id in s.withdrawals && loaded == s.withdrawals[id].(status := loaded.status)
    ensures LogOk(Write(s, kind, id, loaded, commits))
  {
    WriteDoes(s, kind, id, loaded, commits);
    WritePersists(s, kind, id, loaded, commits);
    var t := Write(s, kind, id, loaded, commits);
    if t != s && kind.Key(id).Some? {
      var j := GiveBackJournal(id, kind.Key(id).value, loaded);
      AppendUnique(s.log, j);
      assert Reverses(j, id, t.withdrawals[id]);
      forall i | 0 <= i < |t.log| && t.log[i].refType == WithdrawalRejectReversal
        ensures exists x :: x in t.withdrawals && Reverses(t.log[i], x, t.withdrawals[x])
      {
        if i < |s.log| {
          var x :| x in s.withdrawals && Reverses(s.log[i], x, s.withdrawals[x]);
          assert Reverses(t.log[i], x, t.withdrawals[x]);
        }
      }
    } else if t != s {
      ExtendsLogOk(s, t);
    }
  }

  lemma WholeLogOk(s: State, c: Command)
    requires LogOk(s)
    ensures LogOk(Execute(s, c).state)
  {
    var u := c.useCase;
    WholePersists(s, c);
    if OnStatus(u) {
      WholeIsPieces(s, c);
      if KindOfUse(u).Some? && u.id in s.withdrawals {
        WriteLogOk(s, KindOfUse(u).value, u.id, s.withdrawals[u.id], c.commits);
      }
    } else if u.DoCreateWithdrawal? {
      CreateDoes(s, c);
      if Execute(s, c).state != s {
        ExtendsLogOk(s, Execute(s, c).state);
      }
    } else {
      OthersApart(s, c);
      ExtendsLogOk(s, Execute(s, c).state);
    }
  }

  lemma HandsKept(s: State, t: State, calls: seq<Call>)
    requires Persist(s, t) && forall i :: 0 <= i < |calls| ==> HandOk(s, calls[i])
    ensures forall i :: 0 <= i < |calls| ==> HandOk(t, calls[i])
  {
    forall i | 0 <= i < |calls| ensures HandOk(t, calls[i]) {
      assert HandOk(s, calls[i]);
    }
  }

  lemma PieceKeeps(s: State, call: Call, commits: bool)
    requires (forall id :: RowOk(s, id)) && HandOk(s, call) && LogOk(s)
    ensures var (t, next) := Piece(s, call, commits);
            (forall id :: RowOk(t, id)) && HandOk(t, next) && LogOk(t) && Persist(s, t)
  {
    if call.Writing? {
      forall id ensures RowOk(Piece(s, call, commits).0, id) {
        WriteRowOk(s, call.kind, call.id, call.loaded, commits, id);
      }
      WriteLogOk(s, call.kind, call.id, call.loaded, commits);
      WritePersists(s, call.kind, call.id, call.loaded, commits);
    }
  }

  lemma ActKeeps(r: Race, a: Action)
    requires RaceOk(r)
    ensures RaceOk(Act(r, a))
  {
    var s := r.state;
    match a
    case Whole(c) =>
      forall id ensures RowOk(Execute(s, c).state, id) {
        WholeRowOk(s, c, id);
      }
      WholeLogOk(s, c);
      WholePersists(s, c);
      HandsKept(s, Execute(s, c).state, r.calls);
    case Resume(i, commits) =>
      if i < |r.calls| {
        assert HandOk(s, r.calls[i]);
        PieceKeeps(s, r.calls[i], commits);
        HandsKept(s, Piece(s, r.calls[i], commits).0, r.calls);
      }
    case _ =>
  }

  lemma {:induction false} ContinuationOk(r: Race, actions: seq<Action>)
    requires RaceOk(r)
    ensures RaceOk(Interleave(r, actions))
  {
    if actions != [] {
      ContinuationOk(r, actions[..|actions| - 1]);
      ActKeeps(Interleave(r, actions[..|actions| - 1]), actions[|actions| - 1]);
    }
  }

  /** Every interleaving keeps it. */
  lemma InterleavingOk(actions: seq<Action>)
    ensures RaceOk(Interleave(START, actions))
  {
    ContinuationOk(START, actions);
  }

  // ---- returned twice --------------------------------------------------------------------------

  /** The reserve has been given back by a rejection and by a failure. */
  predicate ReturnedTwice(s: State, id: string) {
    RejectPosted(s.log, id) && FailPosted(s.log, id)
  }

  /** A call of this withdrawal stands between a load and a write of this kind. */
  predicate Parked(r: Race, kind: Kind, id: string) {
    exists i :: 0 <= i < |r.calls| && r.calls[i].Writing? && r.calls[i].kind == kind && r.calls[i].id == id
  }

  /** The rejection's reversal is posted, or its row is still pending, or a rejection has already loaded it as pending. */
  predicate CanReject(r: Race, id: string)
    requires id in r.state.withdrawals
  {
    RejectPosted(r.state.log, id) || r.state.withdrawals[id].status == WPending || Parked(r, Rejecting, id)
  }

  /** The failure's reversal is posted, or the row is in a status that leads to it, or a call that has loaded such a status
      will write one. */
  predicate CanFail(r: Race, id: string)
    requires id in r.state.withdrawals
  {
    || FailPosted(r.state.log, id) || r.state.withdrawals[id].status in {WPending, Approved, SentToBank}
    || Parked(r, Approving, id) || Parked(r, Sending, id) || Parked(r, Failing, id)
  }

  /** What an action does to one withdrawal: nothing, or a write of a call parked there or of a load in its own status; and
      what it parks it has just loaded. */
  lemma ActDoes(r: Race, a: Action, id: string) returns (wrote: Option<Kind>)
    requires RaceOk(r) && id in r.state.withdrawals
    ensures var s, t := r.state, Act(r, a).state;
            match wrote
            case None => SameFor(s, t, id)
            case Some(kind) =>
              && (Parked(r, kind, id) || s.withdrawals[id].status in kind.From()) && Wrote(s, t, kind, id)
              && RejectPosted(t.log, id) == (RejectPosted(s.log, id) || kind == Rejecting)
              && FailPosted(t.log, id) == (FailPosted(s.log, id) || kind == Failing)
  {
    var s := r.state;
    wrote := None;
    match a
    case Whole(c) =>
      WholeDoes(s, c, id);
      if !SameFor(s, Execute(s, c).state, id) {
        WriteHere(s, KindOfUse(c.useCase).value, id, s.withdrawals[id], c.commits);
        wrote := KindOfUse(c.useCase);
      }
    case Resume(i, commits) =>
      if i < |r.calls| && r.calls[i].Writing? {
        var call := r.calls[i];
        if call.id == id {
          WriteHere(s, call.kind, id, call.loaded, commits);
          if Act(r, a).state != s {
            wrote := Some(call.kind);
          }
        } else {
          WriteElsewhere(s, call.kind, call.id, call.loaded, commits, id);
        }
      }
    case _ =>
  }

  lemma ActParks(r: Race, a: Action, kind: Kind, id: string)
    requires id in r.state.withdrawals && Parked(Act(r, a), kind, id)
    ensures Parked(r, kind, id) || r.state.withdrawals[id].status in kind.From()
  {
    var t := Act(r, a);
    var i :| 0 <= i < |t.calls| && t.calls[i].Writing? && t.calls[i].kind == kind && t.calls[i].id == id;
    if i < |r.calls| && r.calls[i] == t.calls[i] {
      assert Parked(r, kind, id);
    }
  }

  lemma NeverRejects(r: Race, a: Action, id: string)
    requires RaceOk(r) && id in r.state.withdrawals && !CanReject(r, id)
    ensures id in Act(r, a).state.withdrawals && !CanReject(Act(r, a), id)
  {
    var wrote := ActDoes(r, a, id);
    if Parked(Act(r, a), Rejecting, id) {
      ActParks(r, a, Rejecting, id);
    }
  }

  lemma NeverFails(r: Race, a: Action, id: string)
    requires RaceOk(r) && id in r.state.withdrawals && !CanFail(r, id)
    ensures id in Act(r, a).state.withdrawals && !CanFail(Act(r, a), id)
  {
    var wrote := ActDoes(r, a, id);
    forall kind | kind in {Approving, Sending, Failing} ensures !Parked(Act(r, a), kind, id) {
      if Parked(Act(r, a), kind, id) {
        ActParks(r, a, kind, id);
      }
    }
  }

  lemma {:induction false} NeverRejected(r: Race, actions: seq<Action>, id: string)
    requires RaceOk(r) && id in r.state.withdrawals && !CanReject(r, id)
    ensures id in Interleave(r, actions).state.withdrawals && !CanReject(Interleave(r, actions), id)
  {
    if actions != [] {
      NeverRejected(r, actions[..|actions| - 1], id);
      ContinuationOk(r, actions[..|actions| - 1]);
      NeverRejects(Interleave(r, actions[..|actions| - 1]), actions[|actions| - 1], id);
    }
  }

  lemma {:induction false} NeverFailed(r: Race, actions: seq<Action>, id: string)
    requires RaceOk(r) && id in r.state.withdrawals && !CanFail(r, id)
    ensures id in Interleave(r, actions).state.withdrawals && !CanFail(Interleave(r, actions), id)
  {
    if actions != [] {
      NeverFailed(r, actions[..|actions| - 1], id);
      ContinuationOk(r, actions[..|actions| - 1]);
      NeverFails(Interleave(r, actions[..|actions| - 1]), actions[|actions| - 1], id);
    }
  }

  /** So what cannot happen stays impossible. */
  lemma NeverTwice(r: Race, actions: seq<Action>, id: string)
    requires RaceOk(r) && id in r.state.withdrawals && !(CanReject(r, id) && CanFail(r, id))
    ensures !ReturnedTwice(Interleave(r, actions).state, id)
  {
    if CanReject(r, id) {
      NeverFailed(r, actions, id);
    } else {
      NeverRejected(r, actions, id);
    }
  }

  // ---- and what can, does ----------------------------------------------------------------------

  lemma InterleaveOne(r: Race, a: Action)
    ensures Interleave(r, [a]) == Act(r, a)
  {
    assert [a][..0] == [];
  }

  lemma {:induction false} InterleaveMore(r: Race, first: seq<Action>, more: seq<Action>)
    ensures Interleave(r, first + more) == Interleave(Interleave(r, first), more)
  {
    if more == [] {
      assert first + more == first;
    } else {
      InterleaveMore(r, first, more[..|more| - 1]);
      assert (first + more)[..|first + more| - 1] == first + more[..|more| - 1];
    }
  }

  /** A call that may load the row now gets parked. */
  lemma Parks(r: Race, kind: Kind, id: string) returns (actions: seq<Action>)
    requires id in r.state.withdrawals && r.state.withdrawals[id].status in kind.From()
    ensures Interleave(r, actions) == r.(calls := r.calls + [Writing(kind, id, r.state.withdrawals[id])])
  {
    var first, second := New(kind, id), Resume(|r.calls|, true);
    actions := [first] + [second];
    InterleaveOne(r, first);
    InterleaveMore(r, [first], [second]);
    InterleaveOne(Act(r, first), second);
    assert (r.calls + [Loading(kind, id)])[|r.calls| := Writing(kind, id, r.state.withdrawals[id])] ==
           r.calls + [Writing(kind, id, r.state.withdrawals[id])];
  }

  /** A parked write goes through, and leaves the calls of other kinds parked. */
  lemma Writes(r: Race, kind: Kind, id: string) returns (actions: seq<Action>)
    requires RaceOk(r) && id in r.state.withdrawals && Parked(r, kind, id)
    requires kind.Key(id).Some? ==> (WithdrawalRejectReversal, kind.Key(id).value) !in Keys(r.state.log)
    ensures var t := Interleave(r, actions);
            && Wrote(r.state, t.state, kind, id)
            && RejectPosted(t.state.log, id) == (RejectPosted(r.state.log, id) || kind == Rejecting)
            && FailPosted(t.state.log, id) == (FailPosted(r.state.log, id) || kind == Failing)
            && (forall other :: other != kind && Parked(r, other, id) ==> Parked(t, other, id))
  {
    var i :| 0 <= i < |r.calls| && r.calls[i].Writing? && r.calls[i].kind == kind && r.calls[i].id == id;
    var call := r.calls[i];
    assert HandOk(r.state, call) && RowOk(r.state, id);
    actions := [Resume(i, true)];
    InterleaveOne(r, Resume(i, true));
    WriteGoes(r.state, kind, id, call.loaded);
    forall other | other != kind && Parked(r, other, id) ensures Parked(Act(r, Resume(i, true)), other, id) {
      var j :| 0 <= j < |r.calls| && r.calls[j].Writing? && r.calls[j].kind == other && r.calls[j].id == id;
      assert Act(r, Resume(i, true)).calls[j] == r.calls[j];
    }
  }

  /** First a rejection is made sure of, without touching the row. */
  lemma SecuresReject(r: Race, id: string) returns (actions: seq<Action>)
    requires RaceOk(r) && id in r.state.withdrawals && CanReject(r, id)
    ensures var t := Interleave(r, actions);
            && t.state == r.state && (RejectPosted(t.state.log, id) || Parked(t, Rejecting, id))
            && (forall kind :: Parked(r, kind, id) ==> Parked(t, kind, id))
  {
    actions := [];
    if !RejectPosted(r.state.log, id) && !Parked(r, Rejecting, id) {
      actions := Parks(r, Rejecting, id);
      var t := Interleave(r, actions);
      assert t.calls[|r.calls|].Writing?;
      forall kind | Parked(r, kind, id) ensures Parked(t, kind, id) {
        var i :| 0 <= i < |r.calls| && r.calls[i].Writing? && r.calls[i].kind == kind && r.calls[i].id == id;
        assert t.calls[i] == r.calls[i];
      }
    }
  }

  /** One write from a status that allows it, whether it was parked or not. */
  lemma Goes(r: Race, kind: Kind, id: string) returns (actions: seq<Action>)
    requires RaceOk(r) && id in r.state.withdrawals && (Parked(r, kind, id) || r.state.withdrawals[id].status in kind.From())
    requires kind.Key(id).Some? ==> (WithdrawalRejectReversal, kind.Key(id).value) !in Keys(r.state.log)
    ensures var t := Interleave(r, actions);
            && RaceOk(t) && Wrote(r.state, t.state, kind, id)
            && RejectPosted(t.state.log, id) == (RejectPosted(r.state.log, id) || kind == Rejecting)
            && FailPosted(t.state.log, id) == (FailPosted(r.state.log, id) || kind == Failing)
            && (forall other :: other != kind && Parked(r, other, id) ==> Parked(t, other, id))
  {
    if Parked(r, kind, id) {
      actions := Writes(r, kind, id);
    } else {
      var load := Parks(r, kind, id);
      var parked := Interleave(r, load);
      ContinuationOk(r, load);
      StillParked(r, parked, id);
      assert parked.calls[|r.calls|].Writing? && Parked(parked, kind, id);
      var write := Writes(parked, kind, id);
      actions := load + write;
      InterleaveMore(r, load, write);
    }
    ContinuationOk(r, actions);
  }

  lemma StillParked(r: Race, t: Race, id: string)
    requires r.calls <= t.calls
    ensures forall kind :: Parked(r, kind, id) ==> Parked(t, kind, id)
  {
    forall kind | Parked(r, kind, id) ensures Parked(t, kind, id) {
      var i :| 0 <= i < |r.calls| && r.calls[i].Writing? && r.calls[i].kind == kind && r.calls[i].id == id;
      assert t.calls[i] == r.calls[i];
    }
  }

  /** Then the failure is posted, and a parked rejection stays parked. */
  lemma GetsFailed(r: Race, id: string) returns (actions: seq<Action>)
    requires RaceOk(r) && id in r.state.withdrawals && CanFail(r, id)
    ensures var t := Interleave(r, actions);
            && RaceOk(t) && id in t.state.withdrawals && FailPosted(t.state.log, id)
            && RejectPosted(t.state.log, id) == RejectPosted(r.state.log, id)
            && (Parked(r, Rejecting, id) ==> Parked(t, Rejecting, id))
  {
    var status := r.state.withdrawals[id].status;
    if FailPosted(r.state.log, id) {
      actions := [];
    } else if Parked(r, Failing, id) || status in {Approved, SentToBank} {
      actions := Goes(r, Failing, id);
    } else {
      var kind := if Parked(r, Sending, id) then Sending else Approving;
      var before := Goes(r, kind, id);
      var fail := Goes(Interleave(r, before), Failing, id);
      actions := before + fail;
      InterleaveMore(r, before, fail);
    }
  }

  lemma BothHappen(r: Race, id: string) returns (actions: seq<Action>)
    requires RaceOk(r) && id in r.state.withdrawals && CanReject(r, id) && CanFail(r, id)
    ensures ReturnedTwice(Interleave(r, actions).state, id)
  {
    var secure := SecuresReject(r, id);
    var secured := Interleave(r, secure);
    ContinuationOk(r, secure);
    var fail := GetsFailed(secured, id);
    var failed := Interleave(secured, fail);
    InterleaveMore(r, secure, fail);
    actions := secure + fail;
    if !RejectPosted(failed.state.log, id) {
      var reject := Writes(failed, Rejecting, id);
      InterleaveMore(r, actions, reject);
      actions := actions + reject;
    }
  }

  /** Some continuation gives the reserve back twice. */
  ghost predicate MayReturnTwice(r: Race, id: string) {
    exists more :: ReturnedTwice(Interleave(r, more).state, id)
  }

  lemma MayNot(r: Race, id: string)
    requires RaceOk(r) && id in r.state.withdrawals && MayReturnTwice(r, id)
    ensures CanReject(r, id) && CanFail(r, id)
  {
    var more :| ReturnedTwice(Interleave(r, more).state, id);
    if !(CanReject(r, id) && CanFail(r, id)) {
      NeverTwice(r, more, id);
    }
  }

  lemma May(r: Race, id: string)
    requires RaceOk(r) && id in r.state.withdrawals && CanReject(r, id) && CanFail(r, id)
    ensures MayReturnTwice(r, id)
  {
    var more := BothHappen(r, id);
  }

  /** Exactly when a reserve can still be given back twice: in any interleaving so far, when the rejection is posted, possible
      or parked, and so is the failure. */
  lemma ReturnedTwiceIff(pre: seq<Action>, id: string)
    requires id in Interleave(START, pre).state.withdrawals
    ensures var r := Interleave(START, pre);
            MayReturnTwice(r, id) <==> CanReject(r, id) && CanFail(r, id)
  {
    InterleavingOk(pre);
    var r := Interleave(START, pre);
    if CanReject(r, id) && CanFail(r, id) {
      May(r, id);
    }
    if MayReturnTwice(r, id) {
      MayNot(r, id);
    }
  }

  /** Then the ledger holds both reversals, each once and for the whole amount, to the same wallet. */
  lemma TwiceIsTwice(pre: seq<Action>, id: string)
    requires ReturnedTwice(Interleave(START, pre).state, id)
    ensures var s := Interleave(START, pre).state;
            && id in s.withdrawals
            && OnlyOne(s.log, RejectReversal(id, s.withdrawals[id].user, s.withdrawals[id].amount))
            && OnlyOne(s.log, FailReversal(id, s.withdrawals[id].user, s.withdrawals[id].amount))
  {
    InterleavingOk(pre);
    var s := Interleave(START, pre).state;
    assert RowOk(s, id);
    ReversalIs(s, id, RejectRef(id));
    ReversalIs(s, id, FailRef(id));
    OneIdRefsInjective(id, id);
    OnePosition(s.log, RejectReversal(id, s.withdrawals[id].user, s.withdrawals[id].amount));
    OnePosition(s.log, FailReversal(id, s.withdrawals[id].user, s.withdrawals[id].amount));
  }

  lemma ReversalIs(s: State, id: string, ref: string)
    requires LogOk(s) && (ref == RejectRef(id) || ref == FailRef(id)) && (WithdrawalRejectReversal, ref) in Keys(s.log)
    ensures id in s.withdrawals
    ensures GiveBackJournal(id, ref, s.withdrawals[id]) in s.log
  {
    KeysAreKeys(s.log, WithdrawalRejectReversal, ref);
    var i :| 0 <= i < |s.log| && s.log[i].refType == WithdrawalRejectReversal && s.log[i].refId == ref;
    var x :| x in s.withdrawals && Reverses(s.log[i], x, s.withdrawals[x]);
    OneIdRefsInjective(id, x);
    OneIdRefsInjective(x, id);
    assert s.log[i] in s.log;
  }
}
