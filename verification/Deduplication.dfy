/** What the idempotency protocol guarantees, and the money machine behind it. */
module Deduplication {
  import opened Int64
  import opened Results
  import opened Refs
  import opened Machine
  import opened Idempotency
  import opened Moves
  import opened Steps

  // ---- at most once ----------------------------------------------------------------------------

  /** In every interleaving, even with crashes, evictions and failing stores, a key never has two owners and never two
      kept handler runs. */
  lemma AtMostOnce(actions: seq<Action>, key: string)
    ensures OneOwner(Serve(IDLE, actions).calls)
    ensures |Kept(Serve(IDLE, actions).history, key)| <= 1
  {
    ServeSafe(actions);
    assert KeyOk(Serve(IDLE, actions), key);
  }

  lemma {:induction false} KeptContains(history: seq<Executed>, key: string, i: nat)
    requires i < |history| && history[i].key == Some(key) && history[i].kept && history[i].reply.Some?
    ensures |Kept(history, key)| >= 1
  {
    if i < |history| - 1 {
      KeptContains(history[..|history| - 1], key, i);
    }
  }

  /** Two kept runs of one key are the same run. */
  lemma KeptOnce(actions: seq<Action>, key: string, i: nat, j: nat)
    requires var h := Serve(IDLE, actions).history;
             && i <= j < |h| && h[i].key == Some(key) == h[j].key
             && h[i].kept && h[i].reply.Some? && h[j].kept && h[j].reply.Some?
    ensures i == j
  {
    if i < j {
      var h := Serve(IDLE, actions).history;
      AtMostOnce(actions, key);
      KeptContains(h[..j], key, i);
      KeptGrows(h, key, j);
    }
  }

  lemma {:induction false} KeptGrows(history: seq<Executed>, key: string, j: nat)
    requires j < |history| && history[j].key == Some(key) && history[j].kept && history[j].reply.Some?
    ensures |Kept(history, key)| >= |Kept(history[..j], key)| + 1
  {
    if j < |history| - 1 {
      KeptGrows(history[..|history| - 1], key, j);
      assert history[..|history| - 1][..j] == history[..j];
    }
  }

  /** How many handler runs of a key have succeeded, kept or not. */
  function Successes(history: seq<Executed>, key: string): nat {
    if history == [] then 0
    else
      var last := history[|history| - 1];
      Successes(history[..|history| - 1], key) + if last.key == Some(key) && last.reply.Some? then 1 else 0
  }

  /** How many of them were not kept: the reply did not convert, or did not arrive. */
  function Lost(history: seq<Executed>, key: string): nat {
    if history == [] then 0
    else
      var last := history[|history| - 1];
      Lost(history[..|history| - 1], key) + if last.key == Some(key) && last.reply.Some? && !last.kept then 1 else 0
  }

  lemma {:induction false} KeptOrLost(history: seq<Executed>, key: string)
    ensures Successes(history, key) == |Kept(history, key)| + Lost(history, key)
  {
    if history != [] {
      KeptOrLost(history[..|history| - 1], key);
    }
  }

  /** The handler of a key succeeds at most once more than its replies failed to convert; so at most once when every
      reply converts. */
  lemma OneSuccessPerKey(actions: seq<Action>, key: string)
    ensures var h := Serve(IDLE, actions).history;
            Successes(h, key) <= 1 + Lost(h, key)
  {
    AtMostOnce(actions, key);
    KeptOrLost(Serve(IDLE, actions).history, key);
  }

  // ---- replays and the cache -------------------------------------------------------------------

  /** The reply that a call of a recorded key was answered with. */
  predicate AnsweredWith(call: Call, key: string, reply: Reply) {
    call.key == key && (call.phase == Answered(Replayed(reply)) || call.phase == Answered(Fresh(reply)))
  }

  /** Every replay, and the first answer itself, returns the reply of the one kept run of the key. */
  lemma AnswerIsKept(actions: seq<Action>, i: nat, key: string, reply: Reply)
    requires i < |Serve(IDLE, actions).calls| && AnsweredWith(Serve(IDLE, actions).calls[i], key, reply)
    ensures Kept(Serve(IDLE, actions).history, key) == [reply]
  {
    ServeSafe(actions);
    var s := Serve(IDLE, actions);
    assert CallOk(s, s.calls[i]) && KeyOk(s, key);
  }

  /** A cached snapshot is the snapshot of the COMPLETED row of its key, and that of its one kept run. */
  lemma CacheCoherent(actions: seq<Action>, key: string)
    requires key in Serve(IDLE, actions).cache
    ensures var s := Serve(IDLE, actions);
            && key in s.rows && s.rows[key] == Completed(s.cache[key])
            && s.cache[key].Some? && Kept(s.history, key) == [s.cache[key].value]
  {
    ServeSafe(actions);
    assert KeyOk(Serve(IDLE, actions), key);
  }

  lemma LooksKept(s: Server, key: string, fault: Fault, conv: Conversion)
    requires KeyOk(s, key)
    ensures match LookUp(s.cache, key, fault, conv)
            case Handling => false
            case Answered(Replayed(reply)) => Kept(s.history, key) == [reply]
            case _ => true
  {}

  /** A look at the cache that finds anything finds the reply of the one kept run of the key, so it never runs the
      handler. */
  lemma LookUpIsKept(actions: seq<Action>, key: string, fault: Fault, conv: Conversion)
    ensures var s := Serve(IDLE, actions);
            match LookUp(s.cache, key, fault, conv)
            case Handling => false
            case Answered(Replayed(reply)) => Kept(s.history, key) == [reply]
            case _ => true
  {
    ServeSafe(actions);
    LooksKept(Serve(IDLE, actions), key, fault, conv);
  }

  lemma CompletedStep(s: Server, call: Call, fault: Fault, conv: Conversion, key: string)
    requires key in s.rows && s.rows[key].Completed?
    ensures var t := Proceed(s, call, fault, conv).0;
            key in t.rows && t.rows[key] == s.rows[key]
  {}

  /** A COMPLETED row is never changed or deleted again, whatever happens. */
  lemma {:induction false} CompletedForever(s: Server, actions: seq<Action>, key: string)
    requires key in s.rows && s.rows[key].Completed?
    ensures key in Serve(s, actions).rows && Serve(s, actions).rows[key] == s.rows[key]
  {
    if actions != [] {
      var t, a := Serve(s, actions[..|actions| - 1]), actions[|actions| - 1];
      CompletedForever(s, actions[..|actions| - 1], key);
      if a.Step? && a.call < |t.calls| {
        CompletedStep(t, t.calls[a.call], a.fault, a.conv, key);
      }
    }
  }

  lemma {:induction false} ServeMore(s: Server, first: seq<Action>, more: seq<Action>)
    ensures Serve(s, first + more) == Serve(Serve(s, first), more)
  {
    if more == [] {
      assert first + more == first;
    } else {
      ServeMore(s, first, more[..|more| - 1]);
      assert (first + more)[..|first + more| - 1] == first + more[..|more| - 1];
    }
  }

  /** No action but its eviction takes an entry out of the cache. */
  lemma StaysCached(s: Server, a: Action, key: string)
    requires key in s.cache && a != Evict(key)
    ensures key in Act(s, a).cache
  {}

  lemma {:induction false} UnevictedStays(s: Server, actions: seq<Action>, key: string)
    requires key in s.cache && Evict(key) !in actions
    ensures key in Serve(s, actions).cache
  {
    if actions != [] {
      UnevictedStays(s, actions[..|actions| - 1], key);
      StaysCached(Serve(s, actions[..|actions| - 1]), actions[|actions| - 1], key);
    }
  }

  /** What is in the cache is found: until it is evicted, every sound look at the key answers the same reply. */
  lemma SetIsFound(pre: seq<Action>, more: seq<Action>, key: string)
    requires key in Serve(IDLE, pre).cache && key != "" && Evict(key) !in more
    ensures var s := Serve(IDLE, pre);
            && s.cache[key].Some?
            && LookUp(Serve(IDLE, pre + more).cache, key, NoFault, Converts) == Answered(Replayed(s.cache[key].value))
  {
    CacheCoherent(pre, key);
    ServeMore(IDLE, pre, more);
    UnevictedStays(Serve(IDLE, pre), more, key);
    CompletedForever(Serve(IDLE, pre), more, key);
    CacheCoherent(pre + more, key);
  }

  // ---- refinement ------------------------------------------------------------------------------

  /** Every recorded reply is what the handler answers at that place of the serial run. */
  ghost predicate Truthful(history: seq<Executed>) {
    forall i :: 0 <= i < |history| && history[i].reply.Some? ==> AnswersAt(history, i, history[i].reply.value)
  }

  /** The i-th recorded run, made in the state that the earlier ones lead to, answers this. */
  ghost predicate AnswersAt(history: seq<Executed>, i: nat, reply: Reply)
    requires i < |history|
  {
    Execute(Run(EMPTY, Commands(history[..i])), history[i].command).result == Ok(reply)
  }

  /** The handler run that an action makes, if any: its key, its command, and whether its reply converts. */
  function RunOf(s: Server, a: Action): Option<(Option<string>, Command, bool)> {
    match a
    case Direct(c) => Some((None, c, false))
    case Step(i, fault, conv) =>
      if i >= |s.calls| || !RunsHandler(s.calls[i], fault) then None
      else Some((Some(s.calls[i].key), s.calls[i].command, Heard(fault, conv).Converts?))
    case _ => None
  }

  lemma ActRecords(s: Server, a: Action)
    ensures Act(s, a).history ==
            match RunOf(s, a)
            case None => s.history
            case Some((owner, c, kept)) => s.history + Trace(s.finance, Execute(s.finance, c), owner, c, kept)
  {}

  lemma TruthfulNext(finance: State, history: seq<Executed>, owner: Option<string>, c: Command, kept: bool)
    requires finance == Run(EMPTY, Commands(history)) && Truthful(history)
    ensures Truthful(history + Trace(finance, Execute(finance, c), owner, c, kept))
  {
    var more := history + Trace(finance, Execute(finance, c), owner, c, kept);
    forall i | 0 <= i < |more| && more[i].reply.Some? ensures AnswersAt(more, i, more[i].reply.value) {
      if i < |history| {
        assert more[..i] == history[..i] && AnswersAt(history, i, history[i].reply.value);
      } else {
        assert more[..i] == history;
      }
    }
  }

  lemma ActTruthful(s: Server, a: Action)
    requires s.finance == Run(EMPTY, Commands(s.history)) && Truthful(s.history)
    ensures Truthful(Act(s, a).history)
  {
    ActRecords(s, a);
    match RunOf(s, a)
    case Some((owner, c, kept)) => TruthfulNext(s.finance, s.history, owner, c, kept);
    case None =>
  }

  lemma {:induction false} RepliesAreResults(actions: seq<Action>)
    ensures Truthful(Serve(IDLE, actions).history)
  {
    if actions != [] {
      var front := actions[..|actions| - 1];
      RepliesAreResults(front);
      ServeSafe(front);
      ActTruthful(Serve(IDLE, front), actions[|actions| - 1]);
    }
  }

  /** However calls, retries, replays, crashes and evictions interleave, the finance state is that of a serial run of the
      recorded handler runs alone, and every recorded reply is the answer of its run at its place there. So everything
      proved about serial runs holds behind the protocol. */
  lemma DeduplicationRefines(actions: seq<Action>)
    ensures var s := Serve(IDLE, actions);
            s.finance == Run(EMPTY, Commands(s.history)) && Truthful(s.history) && Reachable(s.finance)
  {
    ServeSafe(actions);
    RepliesAreResults(actions);
  }

  /** A recorded run either succeeded, or was one of the commands that leave a row behind when they fail. */
  ghost predicate OnlyEffects(history: seq<Executed>) {
    forall i :: 0 <= i < |history| ==> history[i].reply.Some? || LeavesRow(history[i].command)
  }

  lemma EffectNext(finance: State, history: seq<Executed>, owner: Option<string>, c: Command, kept: bool)
    requires Good(finance) && OnlyEffects(history)
    ensures OnlyEffects(history + Trace(finance, Execute(finance, c), owner, c, kept))
  {
    EffectTraced(finance, owner, c, kept);
  }

  lemma EffectTraced(finance: State, owner: Option<string>, c: Command, kept: bool)
    requires Good(finance)
    ensures forall e :: e in Trace(finance, Execute(finance, c), owner, c, kept) ==> e.reply.Some? || LeavesRow(e.command)
  {
    var m := ExecuteStep(finance, c);
    StayStays(finance);
  }

  lemma ActEffects(s: Server, a: Action)
    requires Good(s.finance) && OnlyEffects(s.history)
    ensures OnlyEffects(Act(s, a).history)
  {
    ActRecords(s, a);
    match RunOf(s, a)
    case Some((owner, c, kept)) => EffectNext(s.finance, s.history, owner, c, kept);
    case None =>
  }

  /** Every recorded handler run had its effect for one of these two reasons. */
  lemma {:induction false} HistoryIsEffects(actions: seq<Action>)
    ensures OnlyEffects(Serve(IDLE, actions).history)
  {
    if actions != [] {
      var front := actions[..|actions| - 1];
      HistoryIsEffects(front);
      DeduplicationRefines(front);
      ReachableGood(Serve(IDLE, front).finance);
      ActEffects(Serve(IDLE, front), actions[|actions| - 1]);
    }
  }

  // ---- once per key ----------------------------------------------------------------------------

  /** If the action runs the handler of a key and it succeeds, its reply converts and is not lost. */
  ghost predicate Sure(s: Server, a: Action) {
    match RunOf(s, a)
    case Some((Some(_), c, kept)) => Execute(s.finance, c).result.Ok? ==> kept
    case _ => true
  }

  ghost predicate AllSure(actions: seq<Action>) {
    forall n :: 0 <= n < |actions| ==> Sure(Serve(IDLE, actions[..n]), actions[n])
  }

  /** Every success of a key is kept. */
  ghost predicate AllKept(history: seq<Executed>) {
    forall i :: 0 <= i < |history| && history[i].key.Some? && history[i].reply.Some? ==> history[i].kept
  }

  lemma ActAllKept(s: Server, a: Action)
    ensures AllKept(Act(s, a).history) <==> AllKept(s.history) && Sure(s, a)
  {
    ActRecords(s, a);
    match RunOf(s, a)
    case Some((owner, c, kept)) => TraceAllKept(s.history, s.finance, Execute(s.finance, c), owner, c, kept);
    case None =>
  }

  lemma TraceAllKept(history: seq<Executed>, finance: State, d: Done<Reply>, owner: Option<string>, c: Command, kept: bool)
    ensures AllKept(history + Trace(finance, d, owner, c, kept)) <==>
            AllKept(history) && (owner.Some? && d.result.Ok? ==> kept)
  {
    var trace := Trace(finance, d, owner, c, kept);
    var more := history + trace;
    forall i | 0 <= i < |history| ensures more[i] == history[i] {}
    if trace != [] {
      assert more[|history|] == trace[0];
    }
  }

  lemma {:induction false} AllKeptIffSure(actions: seq<Action>)
    ensures AllKept(Serve(IDLE, actions).history) <==> AllSure(actions)
  {
    if actions != [] {
      var front := actions[..|actions| - 1];
      AllKeptIffSure(front);
      ActAllKept(Serve(IDLE, front), actions[|actions| - 1]);
      SureLast(actions);
    }
  }

  lemma SureLast(actions: seq<Action>)
    requires actions != []
    ensures var last := |actions| - 1;
            AllSure(actions) <==> AllSure(actions[..last]) && Sure(Serve(IDLE, actions[..last]), actions[last])
  {
    var last := |actions| - 1;
    var front := actions[..last];
    forall n | 0 <= n < last ensures actions[..n] == front[..n] && actions[n] == front[n] {}
    if AllSure(actions) {
      forall n | 0 <= n < |front| ensures Sure(Serve(IDLE, front[..n]), front[n]) {
        assert Sure(Serve(IDLE, actions[..n]), actions[n]);
      }
    }
    if AllSure(front) && Sure(Serve(IDLE, front), actions[last]) {
      forall n | 0 <= n < |actions| ensures Sure(Serve(IDLE, actions[..n]), actions[n]) {
        if n < last {
          assert Sure(Serve(IDLE, front[..n]), front[n]);
        }
      }
    }
  }

  lemma {:induction false} NoneLost(history: seq<Executed>, key: string)
    requires AllKept(history)
    ensures Lost(history, key) == 0
  {
    if history != [] {
      NoneLost(history[..|history| - 1], key);
    }
  }

  /** When every success is sure, none is lost, and the handler of a key succeeds at most once. */
  lemma SureSucceedOnce(actions: seq<Action>, key: string)
    requires AllSure(actions)
    ensures var h := Serve(IDLE, actions).history;
            Lost(h, key) == 0 && Successes(h, key) <= 1
  {
    OneSuccessPerKey(actions, key);
    AllKeptIffSure(actions);
    NoneLost(Serve(IDLE, actions).history, key);
  }

  /** The action asks for nothing that leaves a row behind when it fails. */
  predicate AsksClean(a: Action) {
    a.Receive? || a.Direct? ==> !LeavesRow(a.command)
  }

  ghost predicate Clean(s: Server) {
    && (forall i :: 0 <= i < |s.calls| ==> !LeavesRow(s.calls[i].command))
    && (forall i :: 0 <= i < |s.history| ==> !LeavesRow(s.history[i].command))
  }

  lemma ActClean(s: Server, a: Action)
    requires Clean(s) && AsksClean(a)
    ensures Clean(Act(s, a))
  {
    CallsPersist(s, a);
  }

  lemma {:induction false} ServeClean(actions: seq<Action>)
    requires forall a :: a in actions ==> AsksClean(a)
    ensures Clean(Serve(IDLE, actions))
  {
    if actions != [] {
      var front := actions[..|actions| - 1];
      ServeClean(front);
      ActClean(Serve(IDLE, front), actions[|actions| - 1]);
    }
  }

  /** At most one run for each key. */
  ghost predicate OnceEach(history: seq<Executed>) {
    forall i, j :: 0 <= i < j < |history| && history[i].key.Some? ==> history[i].key != history[j].key
  }

  /** The caller was given a reply that the protocol stands for. */
  predicate Told(call: Call) {
    call.phase.Answered? && (call.phase.answer.Replayed? || call.phase.answer.Fresh?)
  }

  /** Every fresh or replayed answer is the result of a run of its key, at its place in the serial run. */
  ghost predicate AnswersAreResults(s: Server) {
    forall c :: 0 <= c < |s.calls| && Told(s.calls[c]) ==>
      exists i :: 0 <= i < |s.history| && s.history[i].key == Some(s.calls[c].key)
                  && AnswersAt(s.history, i, s.calls[c].phase.answer.reply)
  }

  lemma {:induction false} KeptHasPlace(history: seq<Executed>, key: string, reply: Reply)
    requires Kept(history, key) == [reply]
    ensures exists i :: 0 <= i < |history| && history[i].key == Some(key) && history[i].reply == Some(reply)
  {
    var front, last := history[..|history| - 1], history[|history| - 1];
    if last.key == Some(key) && last.kept && last.reply.Some? {
      assert Kept(history, key) == Kept(front, key) + [last.reply.value];
      assert (Kept(front, key) + [last.reply.value])[|Kept(front, key)|] == last.reply.value;
      assert history[|history| - 1].reply == Some(reply);
    } else {
      KeptHasPlace(front, key, reply);
      var i :| 0 <= i < |front| && front[i].key == Some(key) && front[i].reply == Some(reply);
      assert history[i].key == Some(key);
    }
  }

  /** Every replay, and the first answer itself, is what the one kept run of the key answered, at its place in the serial
      run. */
  lemma ReplaysAreStable(actions: seq<Action>, c: nat, key: string, reply: Reply)
    requires c < |Serve(IDLE, actions).calls| && AnsweredWith(Serve(IDLE, actions).calls[c], key, reply)
    ensures var s := Serve(IDLE, actions);
            && Kept(s.history, key) == [reply]
            && exists i :: 0 <= i < |s.history| && s.history[i].key == Some(key) && AnswersAt(s.history, i, reply)
  {
    var s := Serve(IDLE, actions);
    AnswerIsKept(actions, c, key, reply);
    KeptHasPlace(s.history, key, reply);
    RepliesAreResults(actions);
    var i :| 0 <= i < |s.history| && s.history[i].key == Some(key) && s.history[i].reply == Some(reply);
    assert AnswersAt(s.history, i, reply);
  }

  /** Whatever is lost, conflicts, crashes or is evicted: what a caller is given as a fresh or replayed answer is what a run
      of its key answered. */
  lemma AnswersTell(actions: seq<Action>)
    ensures AnswersAreResults(Serve(IDLE, actions))
  {
    var s := Serve(IDLE, actions);
    forall c | 0 <= c < |s.calls| && Told(s.calls[c])
      ensures exists i :: 0 <= i < |s.history| && s.history[i].key == Some(s.calls[c].key)
                          && AnswersAt(s.history, i, s.calls[c].phase.answer.reply)
    {
      ReplaysAreStable(actions, c, s.calls[c].key, s.calls[c].phase.answer.reply);
    }
  }

  /** The money machine behind the protocol is the money machine run once per key. When no success is lost, and commands
      leave nothing behind when they fail, in every interleaving of calls, retries, crashes, evictions and failing stores:
      the finance state is the serial run of the recorded runs, each of them succeeds at its place there, each key has at
      most one, and every fresh or replayed answer is the result of its key's run. */
  lemma RunsOncePerKey(actions: seq<Action>)
    requires AllSure(actions) && forall a :: a in actions ==> AsksClean(a)
    ensures var s := Serve(IDLE, actions);
            && s.finance == Run(EMPTY, Commands(s.history))
            && (forall i :: 0 <= i < |s.history| ==> s.history[i].reply.Some?) && Truthful(s.history)
            && OnceEach(s.history)
            && AnswersAreResults(s)
  {
    var s := Serve(IDLE, actions);
    DeduplicationRefines(actions);
    HistoryIsEffects(actions);
    AllKeptIffSure(actions);
    ServeClean(actions);
    AnswersTell(actions);
    forall i, j | 0 <= i < j < |s.history| && s.history[i].key.Some? ensures s.history[i].key != s.history[j].key {
      if s.history[i].key == s.history[j].key {
        KeptOnce(actions, s.history[i].key.value, i, j);
      }
    }
  }

  /** The call asked for this recorded run. */
  predicate AskedFor(call: Call, e: Executed) {
    e.key == Some(call.key) && e.command == call.command
  }

  /** A recorded run of a key is a run of a command that came in under that key. */
  ghost predicate Asked(s: Server) {
    forall i :: 0 <= i < |s.history| && s.history[i].key.Some? ==>
      exists c :: 0 <= c < |s.calls| && AskedFor(s.calls[c], s.history[i])
  }

  lemma ActAsked(s: Server, a: Action)
    requires Asked(s)
    ensures Asked(Act(s, a))
  {
    var t := Act(s, a);
    CallsPersist(s, a);
    forall i | 0 <= i < |t.history| && t.history[i].key.Some?
      ensures exists c :: 0 <= c < |t.calls| && AskedFor(t.calls[c], t.history[i])
    {
      if i < |s.history| {
        var c :| 0 <= c < |s.calls| && AskedFor(s.calls[c], s.history[i]);
        assert AskedFor(t.calls[c], t.history[i]);
      } else {
        assert AskedFor(t.calls[a.call], t.history[i]);
      }
    }
  }

  lemma CallsPersist(s: Server, a: Action)
    ensures var t := Act(s, a);
            && |t.calls| >= |s.calls|
            && (forall c :: 0 <= c < |s.calls| ==> t.calls[c].key == s.calls[c].key && t.calls[c].command == s.calls[c].command)
            && s.history <= t.history
            && (forall i :: |s.history| <= i < |t.history| && t.history[i].key.Some? ==>
                  a.Step? && a.call < |s.calls| && t.history[i].key.value == s.calls[a.call].key
                  && t.history[i].command == s.calls[a.call].command)
  {
    ActRecords(s, a);
  }

  lemma {:induction false} RunsWereAsked(actions: seq<Action>)
    ensures Asked(Serve(IDLE, actions))
  {
    if actions != [] {
      RunsWereAsked(actions[..|actions| - 1]);
      ActAsked(Serve(IDLE, actions[..|actions| - 1]), actions[|actions| - 1]);
    }
  }

  // ---- a success that is lost ------------------------------------------------------------------

  /** A call up to the end of its row's processing; n is its number, fault and conv say how its handler's answer is heard. */
  function WholeCall(n: nat, key: string, c: Command, fault: Fault, conv: Conversion): seq<Action> {
    [Receive(key, c), Step(n, NoFault, Converts), Step(n, NoFault, Converts), Step(n, fault, conv),
     Step(n, NoFault, Converts)]
  }

  /** The handler takes effect, and its reply does not convert or does not arrive. */
  predicate Unheard(fault: Fault, conv: Conversion) {
    fault != NotDone && !Heard(fault, conv).Converts?
  }

  function AnswerOf(reply: Reply, conv: Conversion): Answer {
    if conv.NotProto? then Unrecorded(reply) else Failed
  }

  lemma ServeOne(before: seq<Action>, a: Action)
    ensures Serve(IDLE, before + [a]) == Act(Serve(IDLE, before), a)
  {
    assert (before + [a])[..|before|] == before;
  }

  lemma ReceiveStep(s: Server, key: string, c: Command)
    requires key != "" && key !in s.cache
    ensures Act(Act(s, Receive(key, c)), Step(|s.calls|, NoFault, Converts)) ==
            s.(calls := s.calls + [Call(key, c, CacheMissed)])
  {}

  lemma AcquireStep(s: Server, calls: seq<Call>, key: string, c: Command)
    requires key !in s.rows && s.calls == calls + [Call(key, c, CacheMissed)]
    ensures Act(s, Step(|calls|, NoFault, Converts)) ==
            s.(rows := s.rows[key := Processing], calls := calls + [Call(key, c, Handling)])
  {}

  lemma Acquires(pre: seq<Action>, key: string, c: Command)
    requires var s := Serve(IDLE, pre); key != "" && key !in s.rows && key !in s.cache
    ensures var s := Serve(IDLE, pre);
            Serve(IDLE, pre + WholeCall(|s.calls|, key, c, NoFault, Converts)[..3]) ==
            s.(rows := s.rows[key := Processing], calls := s.calls + [Call(key, c, Handling)])
  {
    var s := Serve(IDLE, pre);
    var n := |s.calls|;
    var go := Step(n, NoFault, Converts);
    assert pre + WholeCall(n, key, c, NoFault, Converts)[..3] == ((pre + [Receive(key, c)]) + [go]) + [go];
    ServeOne(pre, Receive(key, c));
    ServeOne(pre + [Receive(key, c)], go);
    ReceiveStep(s, key, c);
    ServeOne((pre + [Receive(key, c)]) + [go], go);
    AcquireStep(Serve(IDLE, (pre + [Receive(key, c)]) + [go]), s.calls, key, c);
  }

  lemma HandlerStep(s: Server, n: nat, fault: Fault, conv: Conversion)
    requires n < |s.calls| && s.calls[n].phase.Handling? && Unheard(fault, conv)
    requires Execute(s.finance, s.calls[n].command).result.Ok?
    ensures var call := s.calls[n];
            var d := Execute(s.finance, call.command);
            Act(s, Step(n, fault, conv)) ==
            s.(finance := d.state, history := s.history + [Executed(Some(call.key), call.command, Some(d.result.value), false)],
               calls := s.calls[n := call.(phase := Undoing(AnswerOf(d.result.value, Heard(fault, conv))))])
  {}

  lemma UndoStep(s: Server, n: nat)
    requires n < |s.calls| && s.calls[n].phase.Undoing? && s.calls[n].key in s.rows && s.rows[s.calls[n].key] == Processing
    ensures var call := s.calls[n];
            Act(s, Step(n, NoFault, Converts)) ==
            s.(rows := s.rows - {call.key}, calls := s.calls[n := call.(phase := Answered(call.phase.answer))])
  {}

  lemma HandlesNext(pre: seq<Action>, key: string, c: Command, fault: Fault, conv: Conversion)
    requires var s := Serve(IDLE, pre); key != "" && key !in s.rows && key !in s.cache && Execute(s.finance, c).result.Ok?
    requires Unheard(fault, conv)
    ensures var s := Serve(IDLE, pre);
            var d := Execute(s.finance, c);
            Serve(IDLE, pre + WholeCall(|s.calls|, key, c, fault, conv)[..4]) ==
            s.(finance := d.state, history := s.history + [Executed(Some(key), c, Some(d.result.value), false)],
               rows := s.rows[key := Processing], calls := s.calls + [Call(key, c, Undoing(AnswerOf(d.result.value, Heard(fault, conv))))])
  {
    var n := |Serve(IDLE, pre).calls|;
    var begun := pre + WholeCall(n, key, c, NoFault, Converts)[..3];
    Acquires(pre, key, c);
    ServeOne(begun, Step(n, fault, conv));
    HandlerStep(Serve(IDLE, begun), n, fault, conv);
    assert pre + WholeCall(n, key, c, fault, conv)[..4] == begun + [Step(n, fault, conv)];
  }

  /** The rows are what they were before the call acquired its key. */
  lemma UndoesNew(s: Server, rows: Rows, calls: seq<Call>, key: string, c: Command, answer: Answer)
    requires key !in rows && s.rows == rows[key := Processing] && s.calls == calls + [Call(key, c, Undoing(answer))]
    ensures Act(s, Step(|calls|, NoFault, Converts)) == s.(rows := rows, calls := calls + [Call(key, c, Answered(answer))])
  {
    UndoStep(s, |calls|);
    assert s.rows - {key} == rows;
  }

  lemma CallSplits(pre: seq<Action>, n: nat, key: string, c: Command, fault: Fault, conv: Conversion)
    ensures pre + WholeCall(n, key, c, fault, conv) ==
            (pre + WholeCall(n, key, c, fault, conv)[..4]) + [Step(n, NoFault, Converts)]
  {}

  /** Such a call frees its key again although its effect stays. */
  lemma LostFrees(pre: seq<Action>, key: string, c: Command, fault: Fault, conv: Conversion)
    requires var s := Serve(IDLE, pre); key != "" && key !in s.rows && key !in s.cache && Execute(s.finance, c).result.Ok?
    requires Unheard(fault, conv)
    ensures var s := Serve(IDLE, pre);
            var d := Execute(s.finance, c);
            Serve(IDLE, pre + WholeCall(|s.calls|, key, c, fault, conv)) ==
            s.(finance := d.state, history := s.history + [Executed(Some(key), c, Some(d.result.value), false)],
               calls := s.calls + [Call(key, c, Answered(AnswerOf(d.result.value, Heard(fault, conv))))])
  {
    var s := Serve(IDLE, pre);
    var n := |s.calls|;
    var run, undo := pre + WholeCall(n, key, c, fault, conv)[..4], Step(n, NoFault, Converts);
    HandlesNext(pre, key, c, fault, conv);
    ServeOne(run, undo);
    UndoesNew(Serve(IDLE, run), s.rows, s.calls, key, c, AnswerOf(Execute(s.finance, c).result.value, Heard(fault, conv)));
    CallSplits(pre, n, key, c, fault, conv);
  }

  // ---- when a retry runs the handler again -----------------------------------------------------

  /** The row of the key once its call has gone through the handler and one more step. */
  lemma RowAfter(s: Server, n: nat, rows: Rows, fault: Fault, conv: Conversion)
    requires n < |s.calls| && s.calls[n].phase.Handling?
    requires s.calls[n].key !in rows && s.rows == rows[s.calls[n].key := Processing]
    ensures var call := s.calls[n];
            var t := Act(Act(s, Step(n, fault, conv)), Step(n, NoFault, Converts));
            && t.cache == s.cache && |t.calls| == |s.calls|
            && (call.key !in t.rows <==>
                  fault == NotDone || Execute(s.finance, call.command).result.Err? || !Heard(fault, conv).Converts?)
  {
    var t := Act(s, Step(n, fault, conv));
    assert t.rows == s.rows && t.cache == s.cache && |t.calls| == |s.calls| && t.calls[n].key == s.calls[n].key;
  }

  /** A new call of a key that is not cached reaches the handler exactly when the key has no row. */
  lemma ReachesHandler(s: Server, key: string, c: Command)
    requires key != "" && key !in s.cache
    ensures var n := |s.calls|;
            var t := Act(Act(Act(s, Receive(key, c)), Step(n, NoFault, Converts)), Step(n, NoFault, Converts));
            |t.calls| == n + 1 && (t.calls[n].phase.Handling? <==> key !in s.rows)
  {
    ReceiveStep(s, key, c);
  }

  /** Exactly when a retry runs the handler a second time: in any run so far, for a key not yet used, when the first call's
      handler was not run, or failed, or its reply did not convert or did not arrive. */
  lemma RetryRunsIff(pre: seq<Action>, key: string, c: Command, fault: Fault, conv: Conversion, retry: Command)
    requires var s := Serve(IDLE, pre); key != "" && key !in s.rows && key !in s.cache
    ensures var s := Serve(IDLE, pre);
            var n := |s.calls|;
            var t := Serve(IDLE, (pre + WholeCall(n, key, c, fault, conv))
                                 + WholeCall(n + 1, key, retry, NoFault, Converts)[..3]);
            && |t.calls| == n + 2
            && (t.calls[n + 1].phase.Handling? <==>
                  fault == NotDone || Execute(s.finance, c).result.Err? || !Heard(fault, conv).Converts?)
  {
    var s := Serve(IDLE, pre);
    var n := |s.calls|;
    var first := pre + WholeCall(n, key, c, fault, conv);
    FirstCall(pre, key, c, fault, conv);
    RetryServed(first, n + 1, key, retry);
    ReachesHandler(Serve(IDLE, first), key, retry);
  }

  lemma RetryServed(first: seq<Action>, n: nat, key: string, retry: Command)
    ensures Serve(IDLE, first + WholeCall(n, key, retry, NoFault, Converts)[..3]) ==
            Act(Act(Act(Serve(IDLE, first), Receive(key, retry)), Step(n, NoFault, Converts)), Step(n, NoFault, Converts))
  {
    var go := Step(n, NoFault, Converts);
    assert first + WholeCall(n, key, retry, NoFault, Converts)[..3] == ((first + [Receive(key, retry)]) + [go]) + [go];
    ServeOne(first, Receive(key, retry));
    ServeOne(first + [Receive(key, retry)], go);
    ServeOne((first + [Receive(key, retry)]) + [go], go);
  }

  lemma FirstCall(pre: seq<Action>, key: string, c: Command, fault: Fault, conv: Conversion)
    requires var s := Serve(IDLE, pre); key != "" && key !in s.rows && key !in s.cache
    ensures var s := Serve(IDLE, pre);
            var t := Serve(IDLE, pre + WholeCall(|s.calls|, key, c, fault, conv));
            && key !in t.cache && |t.calls| == |s.calls| + 1
            && (key !in t.rows <==>
                  fault == NotDone || Execute(s.finance, c).result.Err? || !Heard(fault, conv).Converts?)
  {
    var s := Serve(IDLE, pre);
    var n := |s.calls|;
    var begun := pre + WholeCall(n, key, c, NoFault, Converts)[..3];
    var run, done := Step(n, fault, conv), Step(n, NoFault, Converts);
    Acquires(pre, key, c);
    ServeOne(begun, run);
    ServeOne(begun + [run], done);
    assert pre + WholeCall(n, key, c, fault, conv) == (begun + [run]) + [done];
    RowAfter(Serve(IDLE, begun), n, s.rows, fault, conv);
  }

  // ---- a success that takes effect twice -------------------------------------------------------

  lemma SuccessesOne(history: seq<Executed>, e: Executed, key: string)
    ensures Successes(history + [e], key) == Successes(history, key) + if e.key == Some(key) && e.reply.Some? then 1 else 0
  {
    assert (history + [e])[..|history|] == history;
  }

  /** So the promise fails: in any run so far, for a key not yet used, a retry runs the handler, and takes
      effect, a second time. */
  lemma LostRunsTwice(pre: seq<Action>, key: string, first: Command, retry: Command, fault: Fault, conv: Conversion)
    requires var s := Serve(IDLE, pre);
             && key != "" && key !in s.rows && key !in s.cache && Unheard(fault, conv)
             && Execute(s.finance, first).result.Ok? && Execute(Execute(s.finance, first).state, retry).result.Ok?
    ensures var s := Serve(IDLE, pre);
            var n := |s.calls|;
            var t := Serve(IDLE, (pre + WholeCall(n, key, first, fault, conv)) + WholeCall(n + 1, key, retry, fault, conv));
            Successes(t.history, key) == Successes(s.history, key) + 2
            && t.finance == Execute(Execute(s.finance, first).state, retry).state
  {
    var s := Serve(IDLE, pre);
    var d := Execute(s.finance, first);
    LostFrees(pre, key, first, fault, conv);
    var mid := pre + WholeCall(|s.calls|, key, first, fault, conv);
    var t := Serve(IDLE, mid);
    SuccessesOne(s.history, Executed(Some(key), first, Some(d.result.value), false), key);
    LostFrees(mid, key, retry, fault, conv);
    SuccessesOne(t.history, Executed(Some(key), retry, Some(Execute(t.finance, retry).result.value), false), key);
  }

  function TopupOrder(id: Uuid, user: string, amount: int64, url: string, track: string): Command {
    Command(DoCreateWalletTopupOrder(id, user, amount, url, url, Some(track), true), true)
  }

  lemma TopupCreated(s: State, id: Uuid, user: string, amount: int64, url: string, track: string)
    requires user != "" && amount > 0 && url != "" && id !in s.orders
    ensures var d := Execute(s, TopupOrder(id, user, amount, url, track));
            d.result.Ok? && d.state.orders.Keys == s.orders.Keys + {id}
  {}

  lemma TopupsCreated(id: Uuid, again: Uuid, user: string, amount: int64, url: string, track: string)
    requires user != "" && amount > 0 && url != "" && id != again
    ensures var first := Execute(EMPTY, TopupOrder(id, user, amount, url, track));
            var second := Execute(first.state, TopupOrder(again, user, amount, url, track));
            first.result.Ok? && second.result.Ok? && second.state.orders.Keys == {id, again}
  {
    var first := TopupOrder(id, user, amount, url, track);
    TopupCreated(EMPTY, id, user, amount, url, track);
    TopupCreated(Execute(EMPTY, first).state, again, user, amount, url, track);
  }

  lemma TwiceFrom(pre: seq<Action>, all: seq<Action>, s: Server, n: nat, key: string, first: Command, retry: Command,
                  fault: Fault, conv: Conversion)
    requires s == Serve(IDLE, pre) && n == |s.calls| && s.history == []
    requires all == (pre + WholeCall(n, key, first, fault, conv)) + WholeCall(n + 1, key, retry, fault, conv)
    requires key != "" && key !in s.rows && key !in s.cache && Unheard(fault, conv)
    requires Execute(s.finance, first).result.Ok? && Execute(Execute(s.finance, first).state, retry).result.Ok?
    ensures var t := Serve(IDLE, all);
            Successes(t.history, key) == 2 && t.finance == Execute(Execute(s.finance, first).state, retry).state
  {
    LostRunsTwice(pre, key, first, retry, fault, conv);
  }

  /** From nothing: a wallet topup order asked for twice under one key, whose replies are lost, is created twice. */
  lemma LostWitness(key: string, id: Uuid, again: Uuid, user: string, amount: int64, url: string, track: string,
                           fault: Fault, conv: Conversion)
    requires key != "" && id != again && user != "" && amount > 0 && url != "" && Unheard(fault, conv)
    ensures var first, retry := TopupOrder(id, user, amount, url, track), TopupOrder(again, user, amount, url, track);
            var t := Serve(IDLE, WholeCall(0, key, first, fault, conv) + WholeCall(1, key, retry, fault, conv));
            Successes(t.history, key) == 2 && t.finance.orders.Keys == {id, again}
  {
    var first, retry := TopupOrder(id, user, amount, url, track), TopupOrder(again, user, amount, url, track);
    TopupsCreated(id, again, user, amount, url, track);
    TwiceFrom([], WholeCall(0, key, first, fault, conv) + WholeCall(1, key, retry, fault, conv), IDLE, 0, key, first, retry, fault, conv);
  }
}
