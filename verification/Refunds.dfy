/** Where refunds come from and go to: provenance, composition, and how many refund legs an escrow allows. */
module Refunds {
  import opened Results
  import opened Int64
  import opened Refs
  import opened Ledger
  import opened Postings
  import opened Domain
  import opened Machine
  import opened Story
  import opened Effects
  import opened Moves
  import opened Steps
  import opened Preservation

  // ---- provenance ------------------------------------------------------------------------------

  /** However an escrow was refunded so far, promo credit refunded plus promo credit still counted is what promo
      paid in, the two refunded amounts are the split a single refund of their total would have had, and a REFUNDED
      escrow has returned exactly the split it was paid with. */
  ghost predicate ReturnsWhatCame(e: EscrowRow, t: Story) {
    && t.back.promo + e.promoCreditFunded == t.paid.promo
    && (t.back.promo, t.back.wallet) == RefundAllocation(t.back.promo + t.back.wallet, t.paid.promo)
    && 0 <= t.back.wallet <= t.paid.wallet
    && (e.status != Created ==> t.paid.wallet == e.amount - t.paid.promo)
    && (e.status == Refunded ==> t.back == t.paid)
  }

  lemma OkReturns(e: EscrowRow, t: Story)
    requires EscrowOk(e, t)
    ensures ReturnsWhatCame(e, t)
  {}

  lemma RefundProvenance(s: State, ship: string)
    requires Reachable(s) && ship in s.escrows
    ensures ReturnsWhatCame(s.escrows[ship], StoryOf(s.log, ship))
  {
    ReachableGood(s);
    assert EscrowTells(s, ship);
    OkReturns(s.escrows[ship], StoryOf(s.log, ship));
  }

  lemma CounterInRange(s: State, ship: string)
    requires Reachable(s) && ship in s.escrows
    ensures s.escrows[ship].promoCreditFunded >= 0
  {
    ReachableGood(s);
    assert EscrowTells(s, ship);
  }

  /** One accepted refund takes its amount from the escrow and gives the payer the promo part first; no other
      account changes. */
  lemma RefundMoves(s: State, ship: string, refund: int64)
    requires Reachable(s) && PartialRefundEscrow(s, ship, refund).result.Ok?
    ensures var t := PartialRefundEscrow(s, ship, refund).state;
            var (p, w) := RefundAllocation(refund, s.escrows[ship].promoCreditFunded);
            && (forall a :: Net(t.log, Of(a)) == Net(s.log, Of(a)) + Delta(PayBack(ship, s.escrows[ship].payer, p, w), a))
            && StoryOf(t.log, ship) == StoryOf(s.log, ship).PaidBack(p, w)
            && ship in t.escrows && t.escrows[ship].promoCreditFunded == s.escrows[ship].promoCreditFunded - p
  {
    ReachableGood(s);
    EscrowTellsIn(s, ship);
    var m := PartialRefundEscrowStep(s, ship, refund);
    RefundIsReturn(s, ship, refund);
    EffectSoundIn(s, Return(ship, refund));
    EffectMoves(s.log, EffectOf(s, Return(ship, refund)));
    EffectStory(s.log, EffectOf(s, Return(ship, refund)), ship);
  }

  lemma EffectMoves(log: Log, f: Effect)
    requires Sound(f)
    ensures forall a :: Net(log + Journals(f), Of(a)) == Net(log, Of(a)) + Delta(f, a)
  {
    forall a ensures Net(log + Journals(f), Of(a)) == Net(log, Of(a)) + Delta(f, a) {
      EffectNet(log, f, a);
    }
  }

  lemma EffectSoundIn(s: State, m: Move)
    requires Good(s) && Legal(s, m)
    ensures Sound(EffectOf(s, m))
  {
    EffectSound(s, m);
  }

  lemma RefundIsReturn(s: State, ship: string, refund: int64)
    requires EscrowTells(s, ship) && PartialRefundEscrow(s, ship, refund).result.Ok?
    ensures Legal(s, Return(ship, refund))
    ensures PartialRefundEscrow(s, ship, refund).state == Apply(s, Return(ship, refund))
  {
    RefundPosts(s, ship, refund);
    ClampNeverTaken(s, ship, refund);
  }

  // ---- composition -----------------------------------------------------------------------------

  /** A series of partial refunds, each of which must be accepted. */
  function RefundSeries(s: State, ship: string, amounts: seq<int64>): Result<State> {
    if amounts == [] then Ok(s)
    else
      var before :- RefundSeries(s, ship, amounts[..|amounts| - 1]);
      var last := PartialRefundEscrow(before, ship, amounts[|amounts| - 1]);
      if last.result.Ok? then Ok(last.state) else Err(last.result.error)
  }

  lemma RefundIsCommand(s: State, ship: string, refund: int64)
    requires Reachable(s)
    ensures Reachable(PartialRefundEscrow(s, ship, refund).state)
  {
    ReachableNext(s, Command(DoPartialRefundEscrow(ship, refund), true));
  }

  /** Any accepted series of partial refunds that comes to R in all gives promo credit and wallet back exactly as
      one refund of R would. */
  lemma {:induction false} SeriesGivesOneSplit(s: State, ship: string, amounts: seq<int64>)
    requires Reachable(s) && ship in s.escrows && RefundSeries(s, ship, amounts).Ok?
    ensures var t := RefundSeries(s, ship, amounts).value;
            var (p, w) := RefundAllocation(Sum(amounts), s.escrows[ship].promoCreditFunded);
            && Reachable(t) && ship in t.escrows
            && StoryOf(t.log, ship) == StoryOf(s.log, ship).PaidBack(p, w)
            && t.escrows[ship].promoCreditFunded == s.escrows[ship].promoCreditFunded - p
            && Sum(amounts) >= 0
  {
    CounterInRange(s, ship);
    if amounts != [] {
      var front := amounts[..|amounts| - 1];
      SeriesGivesOneSplit(s, ship, front);
      var before, last := RefundSeries(s, ship, front).value, amounts[|amounts| - 1];
      assert last > 0;
      RefundMoves(before, ship, last);
      RefundIsCommand(before, ship, last);
      AllocationAdds(Sum(front), last, s.escrows[ship].promoCreditFunded);
    }
  }

  lemma AllocationAdds(first: int, second: int, promo: int)
    requires first >= 0 && second > 0 && promo >= 0
    ensures var (p, w) := RefundAllocation(first, promo);
            var (q, v) := RefundAllocation(second, promo - p);
            RefundAllocation(first + second, promo) == (p + q, w + v)
  {}

  // ---- how many refunds ------------------------------------------------------------------------

  function Without(xs: seq<int>, i: nat): seq<int>
    requires i < |xs|
  {
    xs[..i] + xs[i + 1..]
  }

  lemma {:induction false} SumWithout(xs: seq<int>, i: nat)
    requires i < |xs|
    ensures SumOf(xs) == SumOf(Without(xs, i)) + xs[i]
  {
    var last := |xs| - 1;
    if i == last {
      assert Without(xs, i) == xs[..last];
    } else {
      SumWithout(xs[..last], i);
      var ys := Without(xs, i);
      assert ys[..|ys| - 1] == Without(xs[..last], i);
    }
  }

  lemma DistinctWithout(xs: seq<int>, i: nat, bound: int)
    requires Distinct(xs) && i < |xs| && xs[i] == bound
    requires forall x :: x in xs ==> x <= bound
    ensures Distinct(Without(xs, i))
    ensures forall y :: y in Without(xs, i) ==> y <= bound - 1
  {
    var ys := Without(xs, i);
    forall k | 0 <= k < |ys| ensures ys[k] <= bound - 1 && ys[k] > 0 {
      var j := if k < i then k else k + 1;
      assert ys[k] == xs[j] && xs[j] in xs;
    }
  }

  /** 1 + 2 + ... + n. */
  function Triangle(n: nat): nat {
    if n == 0 then 0 else Triangle(n - 1) + n
  }

  lemma {:induction false} TriangleClosed(n: nat)
    ensures 2 * Triangle(n) == n * (n + 1)
  {
    if n > 0 {
      TriangleClosed(n - 1);
    }
  }

  /** Pairwise different positive numbers up to a bound: there are at most that many of them, and n of them come
      to at least 1 + 2 + ... + n. */
  lemma {:induction false} DistinctSum(xs: seq<int>, bound: nat)
    requires Distinct(xs) && forall x :: x in xs ==> x <= bound
    ensures |xs| <= bound && SumOf(xs) >= Triangle(|xs|)
    decreases bound
  {
    if bound in xs {
      var i :| 0 <= i < |xs| && xs[i] == bound;
      SumWithout(xs, i);
      DistinctWithout(xs, i, bound);
      DistinctSum(Without(xs, i), bound - 1);
    } else if xs != [] {
      assert xs[0] in xs && 0 < xs[0] < bound;
      DistinctSum(xs, bound - 1);
    }
  }

  lemma {:induction false} EachAtMostSum(xs: seq<int>)
    requires Distinct(xs)
    ensures SumOf(xs) >= 0
    ensures forall k :: 0 <= k < |xs| ==> xs[k] <= SumOf(xs)
  {
    if xs != [] {
      EachAtMostSum(xs[..|xs| - 1]);
      assert forall k :: 0 <= k < |xs| - 1 ==> xs[k] == xs[..|xs| - 1][k];
    }
  }

  lemma LegsBound(xs: seq<int>, total: int)
    requires Distinct(xs) && SumOf(xs) <= total
    ensures |xs| * (|xs| + 1) / 2 <= total
  {
    TriangleClosed(|xs|);
    EachAtMostSum(xs);
    DistinctSum(xs, SumOf(xs));
  }

  /** Because equal refund legs collide, n wallet refunds of one escrow need n(n + 1)/2 within its non-promo part, and n promo
      refunds need it within its promo part. */
  lemma RefundLegBound(s: State, ship: string)
    requires Reachable(s) && ship in s.escrows
    ensures var n := |Legs(s.log, EscrowRefundWallet, ship)|; n * (n + 1) / 2 <= StoryOf(s.log, ship).paid.wallet
    ensures var n := |Legs(s.log, EscrowRefundPromoCredit, ship)|; n * (n + 1) / 2 <= StoryOf(s.log, ship).paid.promo
  {
    LegsInRange(s, ship);
    LegsBound(Legs(s.log, EscrowRefundWallet, ship), StoryOf(s.log, ship).paid.wallet);
    LegsBound(Legs(s.log, EscrowRefundPromoCredit, ship), StoryOf(s.log, ship).paid.promo);
  }

  lemma LegsInRange(s: State, ship: string)
    requires Reachable(s) && ship in s.escrows
    ensures var wallets, promos := Legs(s.log, EscrowRefundWallet, ship), Legs(s.log, EscrowRefundPromoCredit, ship);
            && Distinct(wallets) && SumOf(wallets) <= StoryOf(s.log, ship).paid.wallet
            && Distinct(promos) && SumOf(promos) <= StoryOf(s.log, ship).paid.promo
  {
    ReachableGood(s);
    assert EscrowTells(s, ship);
    assert LegsTell(s.log, EscrowRefundWallet, ship) && LegsTell(s.log, EscrowRefundPromoCredit, ship);
  }
}
