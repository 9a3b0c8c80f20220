/** The (ref_type, ref_id) keys that make ledger journals unique, and when two of them can be equal. */
module Refs {

  datatype RefType =
    | PspFundEscrow | PspToWallet | WalletToEscrow | EscrowRelease | EscrowRefundWallet | WalletTopup
    | WithdrawalReserve | WithdrawalRejectReversal | PromoCreditGrant | PromoCreditReverse
    | PromoCreditToEscrow | EscrowRefundPromoCredit

  /** A generated id: never empty and free of colons. */
  type Uuid = s: string | s != "" && ':' !in s witness "0"

  const DIGITS := "0123456789"

  /** strconv.FormatInt(n, 10) for the amounts that reach a ref id, which are positive. */
  function Decimal(n: nat): string {
    if n < 10 then [DIGITS[n]] else Decimal(n / 10) + [DIGITS[n % 10]]
  }

  function PspWalletRef(ship: string, order: string): string { ship + ":psp-wallet:" + order }

  function WalletEscrowRef(ship: string, order: string): string { ship + ":wallet-escrow:" + order }

  function WalletPayRef(ship: string): string { ship + ":wallet-pay" }

  function ReleaseRef(ship: string): string { ship + ":release" }

  function RefundPromoRef(ship: string, amount: nat): string { ship + ":refund-promo:" + Decimal(amount) }

  function RefundWalletRef(ship: string, amount: nat): string { ship + ":refund-wallet:" + Decimal(amount) }

  function TopupRef(order: string): string { order + ":topup" }

  function ReserveRef(id: string): string { id + ":reserve" }

  function FailRef(id: string): string { id + ":fail" }

  function RejectRef(id: string): string { id + ":reject" }

  function ReverseRef(id: string): string { id + ":reverse" }

  lemma {:induction false} DecimalDigits(n: nat)
    ensures Decimal(n) != "" && forall c :: c in Decimal(n) ==> c in DIGITS
  {
    if n >= 10 {
      DecimalDigits(n / 10);
    }
  }

  lemma DigitsDistinct(i: nat, j: nat)
    requires i < 10 && j < 10 && DIGITS[i] == DIGITS[j]
    ensures i == j
  {}

  /** Decimal printing is injective. */
  lemma {:induction false} DecimalInjective(m: nat, n: nat)
    requires Decimal(m) == Decimal(n)
    ensures m == n
  {
    if m < 10 && n < 10 {
      DigitsDistinct(m, n);
    } else if m >= 10 && n >= 10 {
      var d, e := Decimal(m / 10), Decimal(n / 10);
      assert (d + [DIGITS[m % 10]])[..|d|] == d && (e + [DIGITS[n % 10]])[..|e|] == e;
      DecimalInjective(m / 10, n / 10);
      DigitsDistinct(m % 10, n % 10);
    } else if m >= 10 {
      DecimalDigits(m / 10);
    } else {
      DecimalDigits(n / 10);
    }
  }

  /** Text before a fixed suffix is determined by the whole. */
  lemma SuffixInjective(x: string, y: string, suffix: string)
    requires x + suffix == y + suffix
    ensures x == y
  {
    assert (x + suffix)[..|x|] == x && (y + suffix)[..|y|] == y;
  }

  lemma LastColon(x: string, d: string)
    requires ':' !in d
    ensures var whole := x + ":" + d;
            && whole[|x|] == ':' && whole[..|x|] == x && whole[|x| + 1..] == d
            && forall k :: |x| < k < |whole| ==> whole[k] != ':'
  {}

  lemma FirstColon(x: string, d: string)
    requires ':' !in x
    ensures var whole := x + ":" + d;
            && whole[|x|] == ':' && whole[..|x|] == x && whole[|x| + 1..] == d
            && forall k :: 0 <= k < |x| ==> whole[k] != ':'
  {}

  /** A colon followed by colon-free text can be split off at its end, whatever stands before it. */
  lemma SplitLastColon(x: string, d: string, y: string, e: string)
    requires ':' !in d && ':' !in e
    requires x + ":" + d == y + ":" + e
    ensures x == y && d == e
  {
    LastColon(x, d);
    LastColon(y, e);
  }

  /** Colon-free text before the first colon can be split off, whatever follows it. */
  lemma SplitFirstColon(x: string, d: string, y: string, e: string)
    requires ':' !in x && ':' !in y
    requires x + ":" + d == y + ":" + e
    ensures x == y && d == e
  {
    FirstColon(x, d);
    FirstColon(y, e);
  }

  /** Refund keys name their shipment and amount uniquely for arbitrary shipment ids, colons included. */
  lemma RefundRefsInjective(s: string, m: nat, t: string, n: nat)
    ensures RefundWalletRef(s, m) == RefundWalletRef(t, n) ==> s == t && m == n
    ensures RefundPromoRef(s, m) == RefundPromoRef(t, n) ==> s == t && m == n
  {
    DecimalDigits(m);
    DecimalDigits(n);
    assert ':' !in DIGITS;
    if RefundWalletRef(s, m) == RefundWalletRef(t, n) {
      assert forall x: string, d: string {:trigger x + ":refund-wallet:" + d} ::
          x + ":refund-wallet:" + d == (x + ":refund-wallet") + ":" + d;
      SplitLastColon(s + ":refund-wallet", Decimal(m), t + ":refund-wallet", Decimal(n));
      SuffixInjective(s, t, ":refund-wallet");
      DecimalInjective(m, n);
    }
    if RefundPromoRef(s, m) == RefundPromoRef(t, n) {
      assert forall x: string, d: string {:trigger x + ":refund-promo:" + d} ::
          x + ":refund-promo:" + d == (x + ":refund-promo") + ":" + d;
      SplitLastColon(s + ":refund-promo", Decimal(m), t + ":refund-promo", Decimal(n));
      SuffixInjective(s, t, ":refund-promo");
      DecimalInjective(m, n);
    }
  }

  /** Keys made of one id and a fixed tail are injective, and a failure key is never a rejection key. */
  lemma OneIdRefsInjective(x: string, y: string)
    ensures ReleaseRef(x) == ReleaseRef(y) ==> x == y
    ensures TopupRef(x) == TopupRef(y) ==> x == y
    ensures ReserveRef(x) == ReserveRef(y) ==> x == y
    ensures FailRef(x) == FailRef(y) ==> x == y
    ensures RejectRef(x) == RejectRef(y) ==> x == y
    ensures ReverseRef(x) == ReverseRef(y) ==> x == y
    ensures WalletPayRef(x) == WalletPayRef(y) ==> x == y
    ensures FailRef(x) != RejectRef(y)
  {
    forall suffix: string | x + suffix == y + suffix ensures x == y {
      SuffixInjective(x, y, suffix);
    }
    assert FailRef(x)[|FailRef(x)| - 1] == 'l' && RejectRef(y)[|RejectRef(y)| - 1] == 't';
  }

  /** Funding keys are injective when the shipment ids are colon-free, or when the order ids are. */
  lemma FundingRefsInjective(s: string, o: string, t: string, p: string)
    requires (':' !in s && ':' !in t) || (':' !in o && ':' !in p)
    ensures PspWalletRef(s, o) == PspWalletRef(t, p) ==> s == t && o == p
    ensures WalletEscrowRef(s, o) == WalletEscrowRef(t, p) ==> s == t && o == p
  {
    assert forall x: string, d: string {:trigger x + ":psp-wallet:" + d} ::
        x + ":psp-wallet:" + d == (x + ":psp-wallet") + ":" + d == x + ":" + ("psp-wallet:" + d);
    assert forall x: string, d: string {:trigger x + ":wallet-escrow:" + d} ::
        x + ":wallet-escrow:" + d == (x + ":wallet-escrow") + ":" + d == x + ":" + ("wallet-escrow:" + d);
    if PspWalletRef(s, o) == PspWalletRef(t, p) {
      if ':' !in o && ':' !in p {
        SplitLastColon(s + ":psp-wallet", o, t + ":psp-wallet", p);
        SuffixInjective(s, t, ":psp-wallet");
      } else {
        SplitFirstColon(s, "psp-wallet:" + o, t, "psp-wallet:" + p);
        assert ("psp-wallet:" + o)[11..] == o && ("psp-wallet:" + p)[11..] == p;
      }
    }
    if WalletEscrowRef(s, o) == WalletEscrowRef(t, p) {
      if ':' !in o && ':' !in p {
        SplitLastColon(s + ":wallet-escrow", o, t + ":wallet-escrow", p);
        SuffixInjective(s, t, ":wallet-escrow");
      } else {
        SplitFirstColon(s, "wallet-escrow:" + o, t, "wallet-escrow:" + p);
        assert ("wallet-escrow:" + o)[14..] == o && ("wallet-escrow:" + p)[14..] == p;
      }
    }
  }

  /** A colon-free shipment's wallet payment key is never another escrow's funding key. */
  lemma WalletPayApart(s: string, t: string, o: string)
    requires ':' !in s && ':' !in t
    ensures WalletPayRef(s) != WalletEscrowRef(t, o)
  {
    assert WalletPayRef(s) == s + ":" + "wallet-pay";
    assert WalletEscrowRef(t, o) == t + ":" + ("wallet-escrow:" + o);
    assert "wallet-pay"[7] == 'p' && ("wallet-escrow:" + o)[7] == 'e';
    if WalletPayRef(s) == WalletEscrowRef(t, o) {
      SplitFirstColon(s, "wallet-pay", t, "wallet-escrow:" + o);
    }
  }

  /** With colons the two do collide: a funding key can be the wallet payment key of another shipment. */
  lemma WalletPayCollision(b: string, c: string)
    ensures WalletPayRef(b + ":wallet-escrow:" + c) == WalletEscrowRef(b, c + ":wallet-pay")
  {
    assert b + ":wallet-escrow:" + c + ":wallet-pay" == b + ":wallet-escrow:" + (c + ":wallet-pay");
  }
}
