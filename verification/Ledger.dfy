/** The double-entry ledger: journals, the sums that every balance is derived from, and posting. */
module Ledger {
  import opened Results
  import opened Int64
  import opened Accounts
  import opened Refs
  import Like

  /** Amounts are int64 in the program; arithmetic on them that can leave that range is wrapped where it happens. */
  datatype Line = Line(account: Account, debit: int, credit: int)

  datatype Journal = Journal(refType: RefType, refId: string, lines: seq<Line>)

  type Log = seq<Journal>

  // ---- sums ------------------------------------------------------------------------------------

  /** Which lines a sum ranges over. */
  datatype Selector =
    | Everything
    | Of(account: Account)
    | OfKind(kind: Kind)
    | Where(test: Account -> bool)

  predicate Selects(sel: Selector, a: Account) {
    match sel
    case Everything => true
    case Of(account) => a == account
    case OfKind(kind) => KindOf(a) == kind
    case Where(test) => test(a)
  }

  /** WHERE account_code = code. */
  function ByCode(code: string): Selector {
    Where((a: Account) => Code(a) == code)
  }

  /** WHERE account_code LIKE pattern. */
  function ByLike(pattern: string): Selector {
    Where((a: Account) => Like.Matches(pattern, Code(a)))
  }

  function Debit(lines: seq<Line>, sel: Selector): int {
    if lines == [] then 0
    else
      var last := lines[|lines| - 1];
      Debit(lines[..|lines| - 1], sel) + if Selects(sel, last.account) then last.debit else 0
  }

  function Credit(lines: seq<Line>, sel: Selector): int {
    if lines == [] then 0
    else
      var last := lines[|lines| - 1];
      Credit(lines[..|lines| - 1], sel) + if Selects(sel, last.account) then last.credit else 0
  }

  function Debits(log: Log, sel: Selector): int {
    if log == [] then 0 else Debits(log[..|log| - 1], sel) + Debit(log[|log| - 1].lines, sel)
  }

  function Credits(log: Log, sel: Selector): int {
    if log == [] then 0 else Credits(log[..|log| - 1], sel) + Credit(log[|log| - 1].lines, sel)
  }

  /** Liability balance: credits minus debits. */
  function Net(log: Log, sel: Selector): int {
    Credits(log, sel) - Debits(log, sel)
  }

  function Flow(lines: seq<Line>, sel: Selector): int {
    Credit(lines, sel) - Debit(lines, sel)
  }

  /** The keys of the unique constraint on (ref_type, ref_id). */
  function Keys(log: Log): set<(RefType, string)> {
    if log == [] then {}
    else
      var last := log[|log| - 1];
      Keys(log[..|log| - 1]) + {(last.refType, last.refId)}
  }

  lemma Append(log: Log, j: Journal)
    ensures forall sel :: Debits(log + [j], sel) == Debits(log, sel) + Debit(j.lines, sel)
    ensures forall sel :: Credits(log + [j], sel) == Credits(log, sel) + Credit(j.lines, sel)
    ensures forall sel :: Net(log + [j], sel) == Net(log, sel) + Flow(j.lines, sel)
    ensures Keys(log + [j]) == Keys(log) + {(j.refType, j.refId)}
  {}

  function DebitIn(l: Line, sel: Selector): int {
    if Selects(sel, l.account) then l.debit else 0
  }

  function CreditIn(l: Line, sel: Selector): int {
    if Selects(sel, l.account) then l.credit else 0
  }

  lemma OneLine(x: Line)
    ensures forall sel :: Debit([x], sel) == DebitIn(x, sel)
    ensures forall sel :: Credit([x], sel) == CreditIn(x, sel)
  {}

  lemma TwoLines(x: Line, y: Line)
    ensures forall sel :: Debit([x, y], sel) == DebitIn(x, sel) + DebitIn(y, sel)
    ensures forall sel :: Credit([x, y], sel) == CreditIn(x, sel) + CreditIn(y, sel)
  {
    OneLine(x);
    assert [x, y][..1] == [x];
  }

  lemma ThreeLines(x: Line, y: Line, z: Line)
    ensures forall sel :: Debit([x, y, z], sel) == DebitIn(x, sel) + DebitIn(y, sel) + DebitIn(z, sel)
    ensures forall sel :: Credit([x, y, z], sel) == CreditIn(x, sel) + CreditIn(y, sel) + CreditIn(z, sel)
  {
    TwoLines(x, y);
    assert [x, y, z][..2] == [x, y];
  }

  /** Selectors that pick the same accounts have the same sums. */
  lemma {:induction false} SameLines(lines: seq<Line>, p: Selector, q: Selector)
    requires forall a :: Selects(p, a) == Selects(q, a)
    ensures Debit(lines, p) == Debit(lines, q) && Credit(lines, p) == Credit(lines, q)
  {
    if lines != [] {
      SameLines(lines[..|lines| - 1], p, q);
    }
  }

  lemma {:induction false} SameSums(log: Log, p: Selector, q: Selector)
    requires forall a :: Selects(p, a) == Selects(q, a)
    ensures Debits(log, p) == Debits(log, q) && Credits(log, p) == Credits(log, q)
  {
    if log != [] {
      SameSums(log[..|log| - 1], p, q);
      SameLines(log[|log| - 1].lines, p, q);
    }
  }

  /** Summing the lines stored under an account's code is summing that account, for arbitrary ids. */
  lemma SumByCodeIsSumByAccount(log: Log, a: Account)
    ensures Debits(log, ByCode(Code(a))) == Debits(log, Of(a))
    ensures Credits(log, ByCode(Code(a))) == Credits(log, Of(a))
  {
    forall b ensures Selects(ByCode(Code(a)), b) == Selects(Of(a), b) {
      if Code(a) == Code(b) {
        CodeInjective(a, b);
      }
    }
    SameSums(log, ByCode(Code(a)), Of(a));
  }

  /** The repository's balance query: NUMERIC sums that must fit an int64 to be read at all. */
  function Balance(log: Log, sel: Selector): (r: Result<int>)
    ensures r.Ok? ==> r.value == Net(log, sel) && -MAX <= r.value <= MAX
  {
    var debit, credit := Debits(log, sel), Credits(log, sel);
    if 0 <= debit <= MAX && 0 <= credit <= MAX then Ok(credit - debit) else Err(SumOverflow)
  }

  // ---- validation ------------------------------------------------------------------------------

  /** A line has exactly one positive side. */
  predicate OneSided(l: Line) {
    (l.debit > 0 && l.credit == 0) || (l.credit > 0 && l.debit == 0)
  }

  /** What ValidateLines answers, with the int64 totals of the two sides. */
  function Verdict(lines: seq<Line>): Option<Error> {
    if lines == [] then Some(EmptyJournal)
    else if exists i :: 0 <= i < |lines| && !OneSided(lines[i]) then Some(InvalidEntry)
    else if Wrap(Debit(lines, Everything)) != Wrap(Credit(lines, Everything)) then Some(UnbalancedJournal)
    else None
  }

  method ValidateLines(lines: seq<Line>) returns (err: Option<Error>)
    ensures err == Verdict(lines)
  {
    if |lines| == 0 {
      return Some(EmptyJournal);
    }
    var totalDebit: int64, totalCredit: int64 := 0, 0;
    for i := 0 to |lines|
      invariant forall k :: 0 <= k < i ==> OneSided(lines[k])
      invariant totalDebit == Wrap(Debit(lines[..i], Everything))
      invariant totalCredit == Wrap(Credit(lines[..i], Everything))
    {
      var line := lines[i];
      if line.debit < 0 || line.credit < 0 {
        return Some(InvalidEntry);
      }
      if (line.debit > 0 && line.credit > 0) || (line.debit == 0 && line.credit == 0) {
        return Some(InvalidEntry);
      }
      assert lines[..i + 1][..i] == lines[..i];
      WrapAdd(Debit(lines[..i], Everything), line.debit);
      WrapAdd(Credit(lines[..i], Everything), line.credit);
      totalDebit := Add(totalDebit, line.debit);
      totalCredit := Add(totalCredit, line.credit);
    }
    assert lines[..|lines|] == lines;
    if totalDebit != totalCredit {
      return Some(UnbalancedJournal);
    }
    return None;
  }

  /** Double entry over the integers: one-sided lines whose two sides are equal. */
  ghost predicate Balanced(lines: seq<Line>) {
    && lines != []
    && (forall i :: 0 <= i < |lines| ==> OneSided(lines[i]))
    && Debit(lines, Everything) == Credit(lines, Everything)
  }

  /** ValidateLines accepts a list exactly when it is well formed and balanced modulo 2^64. */
  lemma AcceptedIffBalancedModulo(lines: seq<Line>)
    ensures Verdict(lines) == None <==>
            && lines != []
            && (forall i :: 0 <= i < |lines| ==> OneSided(lines[i]))
            && (Debit(lines, Everything) - Credit(lines, Everything)) % MODULUS == 0
  {
    WrapEqual(Debit(lines, Everything), Credit(lines, Everything));
  }

  /** As long as the two sides differ by less than 2^64, accepted means balanced over the integers. */
  lemma AcceptedIffBalanced(lines: seq<Line>)
    requires -MODULUS < Debit(lines, Everything) - Credit(lines, Everything) < MODULUS
    ensures Verdict(lines) == None <==> Balanced(lines)
  {
    AcceptedIffBalancedModulo(lines);
  }

  /** Beyond that the check can be fooled: three debits and no credit at all are accepted. */
  lemma AcceptedUnbalanced()
    ensures var lines := [Line(PspClearing, MAX, 0), Line(PspClearing, MAX, 0), Line(PspClearing, 2, 0)];
            Verdict(lines) == None && !Balanced(lines)
  {
    var lines := [Line(PspClearing, MAX, 0), Line(PspClearing, MAX, 0), Line(PspClearing, 2, 0)];
    ThreeLines(lines[0], lines[1], lines[2]);
    AcceptedIffBalancedModulo(lines);
  }

  // ---- posting ---------------------------------------------------------------------------------

  /** PostJournal: validate, then insert under the unique key. */
  function Post(log: Log, j: Journal): Result<Log> {
    if j.refId == "" then Err(InvalidEntry)
    else if Verdict(j.lines).Some? then Err(Verdict(j.lines).value)
    else if (j.refType, j.refId) in Keys(log) then Err(DuplicateJournal)
    else Ok(log + [j])
  }

  /** Posting several journals in order, stopping at the first that is refused. */
  function PostAll(log: Log, js: seq<Journal>): Result<Log>
    decreases |js|
  {
    if js == [] then Ok(log)
    else
      var next :- Post(log, js[0]);
      PostAll(next, js[1..])
  }

  /** Every key once. */
  ghost predicate UniqueKeys(log: Log) {
    forall i, j :: 0 <= i < j < |log| ==> (log[i].refType, log[i].refId) != (log[j].refType, log[j].refId)
  }

  lemma {:induction false} KeysAreKeys(log: Log, rt: RefType, ref: string)
    ensures (rt, ref) in Keys(log) <==> exists i :: 0 <= i < |log| && log[i].refType == rt && log[i].refId == ref
  {
    if log != [] {
      KeysAreKeys(log[..|log| - 1], rt, ref);
      if (rt, ref) in Keys(log[..|log| - 1]) {
        var i :| 0 <= i < |log| - 1 && log[..|log| - 1][i].refType == rt && log[..|log| - 1][i].refId == ref;
        assert log[i].refType == rt;
      }
      if exists i :: 0 <= i < |log| - 1 && log[i].refType == rt && log[i].refId == ref {
        var i :| 0 <= i < |log| - 1 && log[i].refType == rt && log[i].refId == ref;
        assert log[..|log| - 1][i].refType == rt;
      }
    }
  }

  lemma AppendUnique(log: Log, j: Journal)
    requires UniqueKeys(log) && (j.refType, j.refId) !in Keys(log)
    ensures UniqueKeys(log + [j])
  {
    KeysAreKeys(log, j.refType, j.refId);
  }

  /** How often a key occurs in the log. */
  ghost function Positions(log: Log, rt: RefType, ref: string): set<int> {
    set i | 0 <= i < |log| && log[i].refType == rt && log[i].refId == ref
  }

  lemma OnePosition(log: Log, j: Journal)
    requires UniqueKeys(log) && j in log
    ensures exists i :: 0 <= i < |log| && log[i] == j && Positions(log, j.refType, j.refId) == {i}
  {}

  lemma NoPosition(log: Log, rt: RefType, ref: string)
    requires (rt, ref) !in Keys(log)
    ensures Positions(log, rt, ref) == {}
  {}

  /** Exactly one journal has this key, and it is this one. */
  ghost predicate OnlyOne(log: Log, j: Journal) {
    exists i :: 0 <= i < |log| && log[i] == j && Positions(log, j.refType, j.refId) == {i}
  }

  ghost predicate Never(log: Log, rt: RefType, ref: string) {
    Positions(log, rt, ref) == {}
  }
}
