/** SQL LIKE (section 8.5 of ISO/IEC 9075-2) for patterns without an escape character,
    and what the three liability patterns of the service select. */
module Like {
  import opened Accounts

  function WalletPattern(): string { WALLET_PREFIX + "%" + WALLET_SUFFIX }

  function EscrowPattern(): string { ESCROW_PREFIX + "%" + ESCROW_SUFFIX }

  function PromoPattern(): string { WALLET_PREFIX + "%" + PROMO_SUFFIX }

  /** '%' stands for any text, '_' for any one character, everything else for itself. */
  predicate Matches(pattern: string, text: string)
    decreases |pattern| + |text|
  {
    if pattern == "" then text == ""
    else if pattern[0] == '%' then
      Matches(pattern[1..], text) || (text != "" && Matches(pattern, text[1..]))
    else
      text != "" && (pattern[0] == '_' || pattern[0] == text[0]) && Matches(pattern[1..], text[1..])
  }

  /** Position by position agreement of a '%'-free pattern with a text of the same length. */
  ghost predicate Fits(pattern: string, text: string) {
    |pattern| == |text| && forall i :: 0 <= i < |pattern| ==> pattern[i] == '_' || pattern[i] == text[i]
  }

  lemma {:induction false} MatchesFixed(pattern: string, text: string)
    requires '%' !in pattern
    ensures Matches(pattern, text) <==> Fits(pattern, text)
  {
    if pattern != "" && text != "" {
      MatchesFixed(pattern[1..], text[1..]);
      assert pattern == [pattern[0]] + pattern[1..] && text == [text[0]] + text[1..];
    }
  }

  lemma {:induction false} MatchesTail(suffix: string, text: string)
    requires '%' !in suffix
    ensures Matches("%" + suffix, text) <==> |text| >= |suffix| && Fits(suffix, text[|text| - |suffix|..])
    decreases |text|
  {
    var pattern := "%" + suffix;
    assert pattern[1..] == suffix;
    MatchesFixed(suffix, text);
    if text != "" {
      MatchesTail(suffix, text[1..]);
      if |text| > |suffix| {
        assert text[1..][|text| - 1 - |suffix|..] == text[|text| - |suffix|..];
      }
    }
    if |text| == |suffix| {
      assert text[0..] == text;
    }
  }

  /** A pattern "prefix%suffix" selects the texts that start and end as required without overlap. */
  lemma {:induction false} MatchesAround(prefix: string, suffix: string, text: string)
    requires '%' !in prefix && '%' !in suffix
    ensures Matches(prefix + "%" + suffix, text) <==>
            && |text| >= |prefix| + |suffix|
            && Fits(prefix, text[..|prefix|])
            && Fits(suffix, text[|text| - |suffix|..])
    decreases |prefix|
  {
    var pattern := prefix + "%" + suffix;
    if prefix == "" {
      assert pattern == "%" + suffix;
      MatchesTail(suffix, text);
    } else if text != "" {
      assert pattern[1..] == prefix[1..] + "%" + suffix;
      MatchesAround(prefix[1..], suffix, text[1..]);
      if |text| >= |prefix| + |suffix| {
        assert text[1..][..|prefix| - 1] == text[..|prefix|][1..];
        assert text[1..][|text| - 1 - |suffix|..] == text[|text| - |suffix|..];
        assert prefix == [prefix[0]] + prefix[1..];
        assert text[..|prefix|] == [text[0]] + text[..|prefix|][1..];
      }
    }
  }

  lemma FitsItself(pattern: string)
    ensures Fits(pattern, pattern)
  {}

  /** The wallet pattern selects exactly the wallet accounts, although its '_' is a wildcard. */
  lemma WalletPatternExact(a: Account)
    ensures Matches(WalletPattern(), Code(a)) <==> a.Wallet?
  {
    var c := Code(a);
    MatchesAround(WALLET_PREFIX, WALLET_SUFFIX, c);
    CodesEndApart(a);
    match a
    case Wallet(u) => Unwrap(WALLET_PREFIX, u, WALLET_SUFFIX);
      FitsItself(WALLET_PREFIX);
      FitsItself(WALLET_SUFFIX);
    case Promo(u) =>
      assert c[|c| - 21..][9] == c[|c| - 12] == 'I';
      assert WALLET_SUFFIX[9] == 'E';
    case Escrow(s) =>
      if |c| >= 26 {
        assert c[..5][0] == c[0] != WALLET_PREFIX[0];
      }
    case _ =>
  }

  /** The promo pattern selects exactly the promo credit accounts. */
  lemma PromoPatternExact(a: Account)
    ensures Matches(PromoPattern(), Code(a)) <==> a.Promo?
  {
    var c := Code(a);
    MatchesAround(WALLET_PREFIX, PROMO_SUFFIX, c);
    CodesEndApart(a);
    match a
    case Promo(u) => Unwrap(WALLET_PREFIX, u, PROMO_SUFFIX);
      FitsItself(WALLET_PREFIX);
      FitsItself(PROMO_SUFFIX);
    case Wallet(u) =>
      if |c| >= 32 {
        assert c[|c| - 27..][15] == c[|c| - 12] == 'E';
        assert PROMO_SUFFIX[15] == 'I';
      }
    case Escrow(s) =>
      if |c| >= 32 {
        assert c[..5][0] == c[0] != WALLET_PREFIX[0];
      }
    case _ =>
  }

  /** The escrow pattern selects exactly the escrow accounts. */
  lemma EscrowPatternExact(a: Account)
    ensures Matches(EscrowPattern(), Code(a)) <==> a.Escrow?
  {
    var c := Code(a);
    MatchesAround(ESCROW_PREFIX, ESCROW_SUFFIX, c);
    CodesEndApart(a);
    match a
    case Escrow(s) => Unwrap(ESCROW_PREFIX, s, ESCROW_SUFFIX);
      FitsItself(ESCROW_PREFIX);
      FitsItself(ESCROW_SUFFIX);
    case _ =>
      if |c| >= 20 {
        assert c[..9][0] == c[0] != ESCROW_PREFIX[0];
      }
  }
}
