/** What withdrawals and promo credit grants leave behind when they succeed. */
module PayoutOutcomes {
  import opened Results
  import opened Int64
  import opened Accounts
  import opened Refs
  import opened Ledger
  import opened Postings
  import opened Domain
  import opened Machine
  import opened Effects
  import opened Moves
  import opened Steps

  // ---- withdrawals -----------------------------------------------------------------------------

  /** Just this withdrawal row was written, and given as the answer. */
  predicate WroteWithdrawal(s: State, d: Done<WithdrawalRow>, id: string, row: WithdrawalRow) {
    d == Done(s.(log := d.state.log, withdrawals := s.withdrawals[id := row]), Ok(row))
  }

  /** An accepted withdrawal is PENDING, and its amount has gone from the user's wallet to payout clearing. */
  lemma WithdrawalReserves(s: State, id: Uuid, user: string, amount: int64, iban: string, active: bool, kyc: bool)
    requires CreateWithdrawal(s, id, user, amount, iban, active, kyc).result.Ok?
    ensures var d := CreateWithdrawal(s, id, user, amount, iban, active, kyc);
            && WroteWithdrawal(s, d, id, WithdrawalRow(user, amount, WPending))
            && (forall a :: Net(d.state.log, Of(a)) == Net(s.log, Of(a)) +
                  if a == Wallet(user) then -amount else if a == PayoutClearing then amount else 0)
  {
    forall a {
      TransferNet(s.log, WithdrawalReserve, ReserveRef(id), Wallet(user), PayoutClearing, amount, a);
    }
  }

  /** The row is there with the one status, and now has the other; no money moves. */
  predicate Advances(s: State, d: Done<WithdrawalRow>, id: string, from: WithdrawalStatus, to: WithdrawalStatus) {
    if id != "" && id in s.withdrawals && s.withdrawals[id].status == from
    then WroteWithdrawal(s, d, id, s.withdrawals[id].(status := to)) && d.state.log == s.log
    else d.result.Err? && d.state == s
  }

  /** Approval, sending and settling take a withdrawal from each status to the next, and direct processing from PENDING to
      COMPLETED, exactly when it is there and what must be said about the payment is. */
  lemma StatusMoves(s: State, id: string, ref: string, channel: string, receipt: string)
    ensures Advances(s, ApproveWithdrawal(s, id), id, WPending, Approved)
    ensures Advances(s, SettleWithdrawal(s, id), id, SentToBank, Settled)
    ensures var sent, done := MarkWithdrawalSent(s, id, ref, channel, receipt), ProcessWithdrawal(s, id, ref, channel, receipt);
            if ref != "" && channel != "" && receipt != ""
            then Advances(s, sent, id, Approved, SentToBank) && Advances(s, done, id, WPending, Completed)
            else sent == done == Refuse(s, WithdrawalInvalidInput)
  {}

  /** The row now has this status, and its amount is back in the wallet. */
  ghost predicate GivenBack(s: State, d: Done<WithdrawalRow>, id: string, to: WithdrawalStatus)
    requires id in s.withdrawals
  {
    var w := s.withdrawals[id];
    && WroteWithdrawal(s, d, id, w.(status := to))
    && (forall a :: Net(d.state.log, Of(a)) == Net(s.log, Of(a)) +
          if a == Wallet(w.user) then w.amount else if a == PayoutClearing then -w.amount else 0)
  }

  lemma ReversalMoves(log: Log, ref: string, user: string, amount: int)
    ensures forall a :: Net(log + [Transfer(WithdrawalRejectReversal, ref, PayoutClearing, Wallet(user), amount)], Of(a)) ==
              Net(log, Of(a)) + if a == Wallet(user) then amount else if a == PayoutClearing then -amount else 0
  {
    forall a {
      TransferNet(log, WithdrawalRejectReversal, ref, PayoutClearing, Wallet(user), amount, a);
    }
  }

  /** A failed withdrawal gives its reserve back to the wallet, and so does a rejected one. */
  lemma FailureGivesBack(s: State, id: string, reason: string)
    requires FailWithdrawal(s, id, reason).result.Ok?
    ensures id in s.withdrawals && GivenBack(s, FailWithdrawal(s, id, reason), id, WFailed)
  {
    ReversalMoves(s.log, FailRef(id), s.withdrawals[id].user, s.withdrawals[id].amount);
  }

  lemma RejectionGivesBack(s: State, id: string)
    requires RejectWithdrawal(s, id).result.Ok?
    ensures id in s.withdrawals && GivenBack(s, RejectWithdrawal(s, id), id, Rejected)
  {
    ReversalMoves(s.log, RejectRef(id), s.withdrawals[id].user, s.withdrawals[id].amount);
  }

  // ---- promo credit ----------------------------------------------------------------------------

  /** Just this grant row was written, and given as the answer. */
  predicate WroteGrant(s: State, d: Done<GrantRow>, id: string, row: GrantRow) {
    d == Done(s.(log := d.state.log, grants := s.grants[id := row]), Ok(row))
  }

  lemma NewGrantPosts(s: State, id: Uuid, user: string, amount: int)
    requires Reachable(s) && id !in s.grants && amount > 0
    ensures Post(s.log, GrantJournal(id, user, amount)) == Ok(s.log + [GrantJournal(id, user, amount)])
  {
    ReachableGood(s);
    GrantKeysIn(s, id);
    GrantPosts(s, id, user, amount);
  }

  lemma GrantMoves(log: Log, id: string, user: string, amount: int)
    ensures forall a :: Net(log + [GrantJournal(id, user, amount)], Of(a)) == Net(log, Of(a)) +
              if a == Promo(user) then amount else if a == PromoExpense then -amount else 0
  {
    forall a {
      TransferNet(log, PromoCreditGrant, id, PromoExpense, Promo(user), amount, a);
    }
  }

  /** A grant is accepted exactly when it is filled in and neither its id nor its idempotency key has a row. It is then ACTIVE,
      and promo expense has paid its amount to the user's promo credit. */
  lemma GrantGives(s: State, id: Uuid, user: string, amount: int64, reason: string, admin: string, key: string)
    requires Reachable(s)
    ensures var d := GrantCredit(s, id, user, amount, reason, admin, key);
            if user == "" || amount <= 0 || reason == "" || admin == "" || key == "" then d == Refuse(s, CreditInvalidInput)
            else if id in s.grants || (exists g :: g in s.grants && s.grants[g].idempotencyKey == key)
            then d == Refuse(s, DuplicateGrant)
            else
              && WroteGrant(s, d, id, GrantRow(user, amount, Active, key))
              && (forall a :: Net(d.state.log, Of(a)) == Net(s.log, Of(a)) +
                    if a == Promo(user) then amount else if a == PromoExpense then -amount else 0)
  {
    if amount > 0 && id !in s.grants {
      NewGrantPosts(s, id, user, amount);
      GrantMoves(s.log, id, user, amount);
    }
  }

  /** An accepted reversal marks the row and takes the amount back, from promo credit to promo expense. */
  lemma ReversalTakesBack(s: State, id: string, reason: string, admin: string)
    requires ReverseCreditGrant(s, id, reason, admin).result.Ok?
    ensures id in s.grants
    ensures var g, d := s.grants[id], ReverseCreditGrant(s, id, reason, admin);
            && g.status == Active && WroteGrant(s, d, id, g.(status := Reversed))
            && (forall a :: Net(d.state.log, Of(a)) == Net(s.log, Of(a)) +
                  if a == Promo(g.user) then -g.amount else if a == PromoExpense then g.amount else 0)
  {
    var g := s.grants[id];
    forall a {
      TransferNet(s.log, PromoCreditReverse, ReverseRef(id), Promo(g.user), PromoExpense, g.amount, a);
    }
  }

  lemma RowKeepsKey(s: State, m: Move, id: string)
    requires Legal(s, m) && id in s.grants
    ensures id in GrantsAfter(s, m) && GrantsAfter(s, m)[id].idempotencyKey == s.grants[id].idempotencyKey
  {}

  lemma {:induction false} KeyStays(s: State, cs: seq<Command>, id: string)
    requires Reachable(s) && id in s.grants
    ensures Reachable(Run(s, cs)) && id in Run(s, cs).grants && Run(s, cs).grants[id].idempotencyKey == s.grants[id].idempotencyKey
  {
    if cs != [] {
      var t, c := Run(s, cs[..|cs| - 1]), cs[|cs| - 1];
      KeyStays(s, cs[..|cs| - 1], id);
      ReachableGood(t);
      var m := ExecuteStep(t, c);
      RowKeepsKey(t, m, id);
      ReachableNext(t, c);
    }
  }

  /** An idempotency key grants once: however the run goes on after a grant, reversals and failed commits included, a second
      grant under its key, to whomever and for whatever amount, is refused and changes nothing. */
  lemma KeyGrantsOnce(s: State, c: Command, cs: seq<Command>, id: Uuid, user: string, amount: int64, reason: string, admin: string)
    requires Reachable(s) && c.useCase.DoGrantCredit? && Execute(s, c).state != s
    ensures var t := Run(Execute(s, c).state, cs);
            GrantCredit(t, id, user, amount, reason, admin, c.useCase.key) ==
            Refuse(t, if user == "" || amount <= 0 || reason == "" || admin == "" then CreditInvalidInput else DuplicateGrant)
  {
    var u, t := c.useCase, Execute(s, c).state;
    ExecuteGrant(s, c);
    GrantGives(s, u.uid, u.user, u.amount, u.reason, u.grantedBy, u.key);
    ReachableNext(s, c);
    KeyStays(t, cs, u.uid);
    GrantGives(Run(t, cs), id, user, amount, reason, admin, u.key);
  }
}
