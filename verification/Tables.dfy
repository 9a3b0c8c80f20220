/** The two ledger tables, journal headers and entry rows, and the log they stand for. */
module Tables {
  import opened Refs
  import opened Ledger

  /** A row of ledger_journals; its id is its position. */
  datatype Header = Header(refType: RefType, refId: string)

  /** A row of ledger_entries. */
  datatype Entry = Entry(journal: nat, line: Line)

  /** The lines of one journal, in the order they were inserted. */
  function LinesOf(entries: seq<Entry>, journal: nat): seq<Line> {
    if entries == [] then []
    else
      var last := entries[|entries| - 1];
      LinesOf(entries[..|entries| - 1], journal) + if last.journal == journal then [last.line] else []
  }

  function LogOf(headers: seq<Header>, entries: seq<Entry>): Log {
    seq(|headers|, i requires 0 <= i < |headers| => Journal(headers[i].refType, headers[i].refId, LinesOf(entries, i)))
  }

  /** The foreign key: every entry belongs to a journal that is there. */
  ghost predicate Owned(headers: seq<Header>, entries: seq<Entry>) {
    forall i :: 0 <= i < |entries| ==> entries[i].journal < |headers|
  }

  /** SELECT SUM(debit), over all entry rows a condition selects. */
  function SumDebit(entries: seq<Entry>, sel: Selector): int {
    if entries == [] then 0
    else SumDebit(entries[..|entries| - 1], sel) + DebitIn(entries[|entries| - 1].line, sel)
  }

  function SumCredit(entries: seq<Entry>, sel: Selector): int {
    if entries == [] then 0
    else SumCredit(entries[..|entries| - 1], sel) + CreditIn(entries[|entries| - 1].line, sel)
  }

  // ---- the flat sums are the sums over the log -------------------------------------------------

  lemma {:induction false} SumsReplace(log: Log, k: nat, line: Line, sel: Selector)
    requires k < |log|
    ensures var j := log[k].(lines := log[k].lines + [line]);
            && Debits(log[k := j], sel) == Debits(log, sel) + DebitIn(line, sel)
            && Credits(log[k := j], sel) == Credits(log, sel) + CreditIn(line, sel)
  {
    var j := log[k].(lines := log[k].lines + [line]);
    var last := |log| - 1;
    if k == last {
      assert log[k := j][..last] == log[..last];
      assert j.lines[..|j.lines| - 1] == log[k].lines;
    } else {
      SumsReplace(log[..last], k, line, sel);
      assert log[k := j][..last] == log[..last][k := j];
    }
  }

  lemma EntryAppends(headers: seq<Header>, entries: seq<Entry>, e: Entry)
    requires e.journal < |headers|
    ensures var j := LogOf(headers, entries)[e.journal];
            LogOf(headers, entries + [e]) == LogOf(headers, entries)[e.journal := j.(lines := j.lines + [e.line])]
  {
    var before, after := LogOf(headers, entries), LogOf(headers, entries + [e]);
    assert (entries + [e])[..|entries|] == entries;
    forall i | 0 <= i < |headers|
      ensures after[i].lines == if i == e.journal then before[i].lines + [e.line] else before[i].lines
    {
      assert LinesOf(entries + [e], i) == LinesOf(entries, i) + if e.journal == i then [e.line] else [];
    }
  }

  lemma {:induction false} NothingPosted(log: Log, sel: Selector)
    requires forall i :: 0 <= i < |log| ==> log[i].lines == []
    ensures Debits(log, sel) == 0 && Credits(log, sel) == 0
  {
    if log != [] {
      NothingPosted(log[..|log| - 1], sel);
    }
  }

  lemma EntryCounts(headers: seq<Header>, entries: seq<Entry>, e: Entry, sel: Selector)
    requires e.journal < |headers|
    ensures Debits(LogOf(headers, entries + [e]), sel) == Debits(LogOf(headers, entries), sel) + DebitIn(e.line, sel)
    ensures Credits(LogOf(headers, entries + [e]), sel) == Credits(LogOf(headers, entries), sel) + CreditIn(e.line, sel)
  {
    EntryAppends(headers, entries, e);
    SumsReplace(LogOf(headers, entries), e.journal, e.line, sel);
  }

  lemma EntrySums(entries: seq<Entry>, e: Entry, sel: Selector)
    ensures SumDebit(entries + [e], sel) == SumDebit(entries, sel) + DebitIn(e.line, sel)
    ensures SumCredit(entries + [e], sel) == SumCredit(entries, sel) + CreditIn(e.line, sel)
  {
    assert (entries + [e])[..|entries|] == entries;
  }

  /** Summing the flat table is summing the log journal by journal, whichever rows a query selects. */
  lemma {:induction false} FlatSums(headers: seq<Header>, entries: seq<Entry>, sel: Selector)
    requires Owned(headers, entries)
    ensures SumDebit(entries, sel) == Debits(LogOf(headers, entries), sel)
    ensures SumCredit(entries, sel) == Credits(LogOf(headers, entries), sel)
  {
    if entries == [] {
      NothingPosted(LogOf(headers, []), sel);
    } else {
      var front, e := entries[..|entries| - 1], entries[|entries| - 1];
      FlatSums(headers, front, sel);
      EntryCounts(headers, front, e, sel);
      EntrySums(front, e, sel);
      assert entries == front + [e];
    }
  }

  // ---- inserting a journal ---------------------------------------------------------------------

  lemma {:induction false} NoLines(entries: seq<Entry>, journal: nat)
    requires forall i :: 0 <= i < |entries| ==> entries[i].journal != journal
    ensures LinesOf(entries, journal) == []
  {
    if entries != [] {
      NoLines(entries[..|entries| - 1], journal);
    }
  }

  /** A new header stands for an empty journal. */
  lemma HeaderAppends(headers: seq<Header>, entries: seq<Entry>, h: Header)
    requires Owned(headers, entries)
    ensures LogOf(headers + [h], entries) == LogOf(headers, entries) + [Journal(h.refType, h.refId, [])]
  {
    NoLines(entries, |headers|);
  }

  /** The unique constraint refuses a key exactly when the log has it. */
  lemma HeaderKeys(headers: seq<Header>, entries: seq<Entry>, rt: RefType, ref: string)
    ensures Header(rt, ref) in headers <==> (rt, ref) in Keys(LogOf(headers, entries))
  {
    var log := LogOf(headers, entries);
    KeysAreKeys(log, rt, ref);
    if Header(rt, ref) in headers {
      var i :| 0 <= i < |headers| && headers[i] == Header(rt, ref);
      assert log[i].refType == rt;
    }
    if (rt, ref) in Keys(log) {
      var i :| 0 <= i < |log| && log[i].refType == rt && log[i].refId == ref;
      assert headers[i] == Header(rt, ref);
    }
  }
}
