/** The idempotency protocol in front of the money machine: many concurrent calls, a table of keys, a cache that may
    forget at any time, failing stores and crashing callers. */
module Idempotency {
  import opened Results
  import opened Machine

  // ---- the two stores --------------------------------------------------------------------------

  /** A row of idempotency_records. The stored snapshot could be null, which a reader takes for "run the handler". */
  datatype Row = Processing | Completed(snapshot: Option<Reply>)

  type Rows = map<string, Row>

  /** A cached snapshot could be null as well. */
  type Cache = map<string, Option<Reply>>

  /** INSERT ... ON CONFLICT DO NOTHING. */
  function Inserted(rows: Rows, key: string): Rows {
    if key in rows then rows else rows[key := Processing]
  }

  /** UPDATE ... WHERE status = PROCESSING. */
  function Stored(rows: Rows, key: string, snapshot: Option<Reply>): Rows {
    if key in rows && rows[key] == Processing then rows[key := Completed(snapshot)] else rows
  }

  /** DELETE ... WHERE status = PROCESSING. */
  function Deleted(rows: Rows, key: string): Rows {
    if key in rows && rows[key] == Processing then rows - {key} else rows
  }

  // ---- calls -----------------------------------------------------------------------------------

  datatype Answer =
    | Replayed(reply: Reply)
    | Fresh(reply: Reply)
    | Unrecorded(reply: Reply)
    | KeyRequired
    | Conflict
    | Failed

  /** How far a call has come through the interceptor. */
  datatype Phase =
    | Arrived
    | CacheMissed
    | InsertLost
    | Refilling(reply: Reply)
    | Handling
    | Undoing(answer: Answer)
    | Storing(reply: Reply)
    | Caching(reply: Reply)
    | Answered(answer: Answer)

  datatype Call = Call(key: string, command: Command, phase: Phase)

  /** A handler run that had an effect. It is kept when its reply could be turned into a snapshot. */
  datatype Executed = Executed(key: Option<string>, command: Command, reply: Option<Reply>, kept: bool)

  datatype Server = Server(finance: State, rows: Rows, cache: Cache, calls: seq<Call>, history: seq<Executed>)

  const IDLE := Server(EMPTY, map[], map[], [], [])

  /** A store operation or a handler may fail without having been done, or be done and report a failure all the same. */
  datatype Fault = NoFault | NotDone | DoneButLost

  /** Whether a reply can be turned into a snapshot, or a snapshot back into a reply; NotProto is a response that is no
      message at all. */
  datatype Conversion = Converts | NotProto | ConversionFails

  datatype Action =
    | Receive(key: string, command: Command)
    | Direct(command: Command)
    | Step(call: nat, fault: Fault, conv: Conversion)
    | Crash(call: nat)
    | Evict(key: string)

  // ---- the steps of one call -------------------------------------------------------------------

  /** One look at the cache. */
  function LookUp(cache: Cache, key: string, fault: Fault, conv: Conversion): Phase {
    if key == "" then Answered(KeyRequired)
    else if fault != NoFault then Answered(Failed)
    else if key !in cache then CacheMissed
    else if cache[key].None? then Handling
    else if conv.Converts? then Answered(Replayed(cache[key].value))
    else Answered(Failed)
  }

  /** The separate read after a lost insert. */
  function ReadExisting(rows: Rows, key: string, fault: Fault): Phase {
    if fault != NoFault || key !in rows then Answered(Failed)
    else
      match rows[key]
      case Processing => Answered(Conflict)
      case Completed(None) => Handling
      case Completed(Some(reply)) => Refilling(reply)
  }

  /** Whether a handler run, with outcome d, left a trace. */
  function Trace(finance: State, d: Done<Reply>, key: Option<string>, c: Command, kept: bool): seq<Executed> {
    if d.result.Ok? then [Executed(key, c, Some(d.result.value), kept)]
    else if d.state != finance then [Executed(key, c, None, false)]
    else []
  }

  /** What the interceptor can do with a reply. A handler that takes effect and whose answer is lost, say with the connection
      that was to acknowledge its commit, reports an error, like a reply that fails to convert. */
  function Heard(fault: Fault, conv: Conversion): Conversion {
    if fault == DoneButLost then ConversionFails else conv
  }

  function AfterHandler(d: Done<Reply>, conv: Conversion): Phase {
    match d.result
    case Err(_) => Undoing(Failed)
    case Ok(reply) =>
      match conv
      case Converts => Storing(reply)
      case NotProto => Undoing(Unrecorded(reply))
      case ConversionFails => Undoing(Failed)
  }

  /** A handler run for a key, with outcome d. */
  function Handled(s: Server, d: Done<Reply>, key: Option<string>, c: Command, kept: bool): Server {
    s.(finance := d.state, history := s.history + Trace(s.finance, d, key, c, kept))
  }

  function Proceed(s: Server, call: Call, fault: Fault, conv: Conversion): (Server, Phase) {
    var key := call.key;
    match call.phase
    case Arrived => (s, LookUp(s.cache, key, fault, conv))
    case CacheMissed =>
      if fault != NoFault then (s.(rows := if fault == NotDone then s.rows else Inserted(s.rows, key)), Answered(Failed))
      else (s.(rows := Inserted(s.rows, key)), if key in s.rows then InsertLost else Handling)
    case InsertLost => (s, ReadExisting(s.rows, key, fault))
    case Refilling(reply) =>
      (s.(cache := if fault == NotDone then s.cache else s.cache[key := Some(reply)]),
       Answered(if conv.Converts? then Replayed(reply) else Failed))
    case Handling =>
      if fault == NotDone then (s, Undoing(Failed))
      else
        var d := Execute(s.finance, call.command);
        (Handled(s, d, Some(key), call.command, Heard(fault, conv).Converts?), AfterHandler(d, Heard(fault, conv)))
    case Undoing(answer) =>
      (s.(rows := if fault == NotDone then s.rows else Deleted(s.rows, key)), Answered(answer))
    case Storing(reply) =>
      if fault == NotDone then (s, Answered(Failed))
      else
        (s.(rows := Stored(s.rows, key, Some(reply))),
         if fault == NoFault && key in s.rows && s.rows[key] == Processing then Caching(reply) else Answered(Failed))
    case Caching(reply) =>
      (s.(cache := if fault == NotDone then s.cache else s.cache[key := Some(reply)]),
       Answered(if fault == NoFault then Fresh(reply) else Failed))
    case Answered(_) => (s, call.phase)
  }

  function Act(s: Server, a: Action): Server {
    match a
    case Receive(key, c) => s.(calls := s.calls + [Call(key, c, Arrived)])
    case Direct(c) => Handled(s, Execute(s.finance, c), None, c, false)
    case Step(i, fault, conv) =>
      if i >= |s.calls| then s
      else
        var (t, phase) := Proceed(s, s.calls[i], fault, conv);
        t.(calls := s.calls[i := s.calls[i].(phase := phase)])
    case Crash(i) => if i >= |s.calls| then s else s.(calls := s.calls[i := s.calls[i].(phase := Answered(Failed))])
    case Evict(key) => s.(cache := s.cache - {key})
  }

  function Serve(s: Server, actions: seq<Action>): Server {
    if actions == [] then s else Act(Serve(s, actions[..|actions| - 1]), actions[|actions| - 1])
  }

  // ---- the invariant ---------------------------------------------------------------------------

  /** The replies of the kept handler runs of a key. */
  function Kept(history: seq<Executed>, key: string): seq<Reply> {
    if history == [] then []
    else
      var last := history[|history| - 1];
      Kept(history[..|history| - 1], key)
      + if last.key == Some(key) && last.kept && last.reply.Some? then [last.reply.value] else []
  }

  /** A call that has acquired its key and not yet let go of it. */
  predicate Owns(call: Call) {
    call.phase.Handling? || call.phase.Undoing? || call.phase.Storing?
  }

  ghost predicate CallOk(s: Server, call: Call) {
    var key := call.key;
    match call.phase
    case Handling => key in s.rows && s.rows[key] == Processing && Kept(s.history, key) == []
    case Undoing(answer) =>
      key in s.rows && s.rows[key] == Processing && Kept(s.history, key) == [] && !answer.Replayed? && !answer.Fresh?
    case Storing(reply) => key in s.rows && s.rows[key] == Processing && Kept(s.history, key) == [reply]
    case Caching(reply) => key in s.rows && s.rows[key] == Completed(Some(reply))
    case Refilling(reply) => key in s.rows && s.rows[key] == Completed(Some(reply))
    case Answered(Replayed(reply)) => key in s.rows && s.rows[key] == Completed(Some(reply))
    case Answered(Fresh(reply)) => key in s.rows && s.rows[key] == Completed(Some(reply))
    case _ => true
  }

  ghost predicate KeyOk(s: Server, key: string) {
    var kept := Kept(s.history, key);
    && |kept| <= 1
    && (kept != [] ==> key in s.rows)
    && (key in s.rows && s.rows[key].Completed? ==> kept != [] && s.rows[key].snapshot == Some(kept[0]))
    && (key in s.cache ==> key in s.rows && s.rows[key] == Completed(s.cache[key]))
  }

  ghost predicate OneOwner(calls: seq<Call>) {
    forall i, j :: 0 <= i < j < |calls| && Owns(calls[i]) && Owns(calls[j]) ==> calls[i].key != calls[j].key
  }

  function Commands(history: seq<Executed>): seq<Command> {
    if history == [] then [] else Commands(history[..|history| - 1]) + [history[|history| - 1].command]
  }

  ghost predicate Safe(s: Server) {
    && OneOwner(s.calls)
    && (forall i :: 0 <= i < |s.calls| ==> CallOk(s, s.calls[i]))
    && (forall key :: KeyOk(s, key))
    && s.finance == Run(EMPTY, Commands(s.history))
  }

  // ---- history ---------------------------------------------------------------------------------

  lemma KeptOne(history: seq<Executed>, e: Executed, key: string)
    ensures Kept(history + [e], key) ==
            Kept(history, key) + if e.key == Some(key) && e.kept && e.reply.Some? then [e.reply.value] else []
  {}

  /** What a handler run adds for a key. */
  lemma KeptAfter(s: Server, d: Done<Reply>, owner: Option<string>, c: Command, kept: bool, key: string)
    ensures Kept(Handled(s, d, owner, c, kept).history, key) ==
            if owner == Some(key) && kept && d.result.Ok? then Kept(s.history, key) + [d.result.value] else Kept(s.history, key)
  {
    if d.result.Ok? {
      KeptOne(s.history, Executed(owner, c, Some(d.result.value), kept), key);
    } else if d.state != s.finance {
      KeptOne(s.history, Executed(owner, c, None, false), key);
    } else {
      assert s.history + [] == s.history;
    }
  }

  lemma RunOne(cs: seq<Command>, c: Command)
    ensures Run(EMPTY, cs + [c]) == Execute(Run(EMPTY, cs), c).state
  {}

  lemma CommandsOne(history: seq<Executed>, e: Executed)
    ensures Commands(history + [e]) == Commands(history) + [e.command]
  {
    assert (history + [e])[..|history|] == history;
  }

  lemma CommandsAfter(history: seq<Executed>, finance: State, d: Done<Reply>, owner: Option<string>, c: Command, kept: bool)
    ensures Commands(history + Trace(finance, d, owner, c, kept)) ==
            if d.result.Ok? || d.state != finance then Commands(history) + [c] else Commands(history)
  {
    var trace := Trace(finance, d, owner, c, kept);
    if trace == [] {
      assert history + trace == history;
    } else {
      CommandsOne(history, trace[0]);
    }
  }

  /** The finance state is what the recorded handler runs, in their order, lead to. */
  lemma FinanceAfter(s: Server, owner: Option<string>, c: Command, kept: bool)
    requires s.finance == Run(EMPTY, Commands(s.history))
    ensures var t := Handled(s, Execute(s.finance, c), owner, c, kept);
            t.finance == Run(EMPTY, Commands(t.history))
  {
    RunOne(Commands(s.history), c);
    CommandsAfter(s.history, s.finance, Execute(s.finance, c), owner, c, kept);
  }

  // ---- one step --------------------------------------------------------------------------------

  /** The phases that write the row of their key, and those that write its cache entry. */
  predicate WritesRow(p: Phase) {
    p.CacheMissed? || p.Undoing? || p.Storing?
  }

  predicate WritesCache(p: Phase) {
    p.Refilling? || p.Caching?
  }

  /** The step that runs the handler. */
  predicate RunsHandler(call: Call, fault: Fault) {
    call.phase.Handling? && fault != NotDone
  }

  lemma RowStepKey(s: Server, call: Call, fault: Fault, conv: Conversion)
    requires KeyOk(s, call.key) && CallOk(s, call) && WritesRow(call.phase)
    ensures var (t, phase) := Proceed(s, call, fault, conv);
            KeyOk(t, call.key) && CallOk(t, call.(phase := phase))
  {}

  lemma CacheStepKey(s: Server, call: Call, fault: Fault, conv: Conversion)
    requires KeyOk(s, call.key) && CallOk(s, call) && WritesCache(call.phase)
    ensures var (t, phase) := Proceed(s, call, fault, conv);
            KeyOk(t, call.key) && CallOk(t, call.(phase := phase))
  {}

  lemma ReadStepKey(s: Server, call: Call, fault: Fault, conv: Conversion)
    requires KeyOk(s, call.key) && CallOk(s, call) && !WritesRow(call.phase) && !WritesCache(call.phase) && !RunsHandler(call, fault)
    ensures var (t, phase) := Proceed(s, call, fault, conv);
            t == s && CallOk(t, call.(phase := phase))
  {}

  /** What a step does to the rows, the cache and the history of its own key. */
  lemma StepKey(s: Server, call: Call, fault: Fault, conv: Conversion)
    requires KeyOk(s, call.key) && CallOk(s, call) && !RunsHandler(call, fault)
    ensures var (t, phase) := Proceed(s, call, fault, conv);
            KeyOk(t, call.key) && CallOk(t, call.(phase := phase))
  {
    if WritesRow(call.phase) {
      RowStepKey(s, call, fault, conv);
    } else if WritesCache(call.phase) {
      CacheStepKey(s, call, fault, conv);
    } else {
      ReadStepKey(s, call, fault, conv);
    }
  }

  lemma HandlingKey(s: Server, call: Call, d: Done<Reply>, conv: Conversion)
    requires KeyOk(s, call.key) && CallOk(s, call) && call.phase.Handling?
    ensures var t := Handled(s, d, Some(call.key), call.command, conv.Converts?);
            KeyOk(t, call.key) && CallOk(t, call.(phase := AfterHandler(d, conv)))
  {
    KeptAfter(s, d, Some(call.key), call.command, conv.Converts?, call.key);
  }

  /** A handler run of an owner leaves what the other calls and keys rely on. */
  lemma HandlingBeside(s: Server, call: Call, d: Done<Reply>, conv: Conversion, other: Call)
    requires CallOk(s, call) && CallOk(s, other) && call.phase.Handling?
    requires !(Owns(other) && call.key == other.key)
    ensures CallOk(Handled(s, d, Some(call.key), call.command, conv.Converts?), other)
  {
    KeptAfter(s, d, Some(call.key), call.command, conv.Converts?, other.key);
  }

  lemma HandlingElsewhere(s: Server, call: Call, d: Done<Reply>, conv: Conversion, key: string)
    requires key != call.key
    ensures SameFor(s, Handled(s, d, Some(call.key), call.command, conv.Converts?), key)
  {
    KeptAfter(s, d, Some(call.key), call.command, conv.Converts?, key);
  }

  lemma RowsElsewhere(s: Server, call: Call, fault: Fault, conv: Conversion, key: string)
    requires key != call.key && WritesRow(call.phase)
    ensures SameFor(s, Proceed(s, call, fault, conv).0, key)
  {}

  lemma StoresElsewhere(s: Server, call: Call, fault: Fault, conv: Conversion, key: string)
    requires key != call.key && !RunsHandler(call, fault)
    ensures SameFor(s, Proceed(s, call, fault, conv).0, key)
  {
    if WritesRow(call.phase) {
      RowsElsewhere(s, call, fault, conv, key);
    }
  }

  /** A step leaves every other key alone. */
  lemma StepElsewhere(s: Server, call: Call, fault: Fault, conv: Conversion, key: string)
    requires key != call.key
    ensures SameFor(s, Proceed(s, call, fault, conv).0, key)
  {
    if RunsHandler(call, fault) {
      HandlingElsewhere(s, call, Execute(s.finance, call.command), Heard(fault, conv), key);
    } else {
      StoresElsewhere(s, call, fault, conv, key);
    }
  }

  /** Row, cache entry and kept runs of a key are the same. */
  ghost predicate SameFor(s: Server, t: Server, key: string) {
    && (key in t.rows <==> key in s.rows) && (key in s.rows ==> t.rows[key] == s.rows[key])
    && (key in t.cache <==> key in s.cache) && (key in s.cache ==> t.cache[key] == s.cache[key])
    && Kept(t.history, key) == Kept(s.history, key)
  }

  /** What another call of the same key relies on survives the step. */
  lemma StepBeside(s: Server, call: Call, fault: Fault, conv: Conversion, other: Call)
    requires KeyOk(s, call.key) && CallOk(s, call) && CallOk(s, other)
    requires !(Owns(call) && Owns(other) && call.key == other.key)
    ensures CallOk(Proceed(s, call, fault, conv).0, other)
  {
    if other.key != call.key {
      StepElsewhere(s, call, fault, conv, other.key);
    } else if RunsHandler(call, fault) {
      HandlingBeside(s, call, Execute(s.finance, call.command), Heard(fault, conv), other);
    }
  }

  /** A call that becomes the owner of its key found no row, so nobody else owns it. */
  lemma StepAcquires(s: Server, call: Call, fault: Fault, conv: Conversion, other: Call)
    requires KeyOk(s, call.key) && CallOk(s, call) && CallOk(s, other)
    requires !(Owns(call) && Owns(other) && call.key == other.key)
    ensures !(Owns(call.(phase := Proceed(s, call, fault, conv).1)) && Owns(other) && call.key == other.key)
  {}

  lemma OwnersApart(s: Server, i: nat, fault: Fault, conv: Conversion)
    requires Safe(s) && i < |s.calls|
    ensures OneOwner(s.calls[i := s.calls[i].(phase := Proceed(s, s.calls[i], fault, conv).1)])
  {
    var call := s.calls[i];
    var calls := s.calls[i := call.(phase := Proceed(s, call, fault, conv).1)];
    assert CallOk(s, call) && KeyOk(s, call.key);
    forall j, k | 0 <= j < k < |calls| && Owns(calls[j]) && Owns(calls[k]) ensures calls[j].key != calls[k].key {
      if j == i {
        StepAcquires(s, call, fault, conv, s.calls[k]);
      } else if k == i {
        StepAcquires(s, call, fault, conv, s.calls[j]);
      }
    }
  }

  lemma OthersRely(s: Server, i: nat, fault: Fault, conv: Conversion)
    requires Safe(s) && i < |s.calls|
    ensures forall k :: 0 <= k < |s.calls| && k != i ==> CallOk(Proceed(s, s.calls[i], fault, conv).0, s.calls[k])
  {
    assert CallOk(s, s.calls[i]) && KeyOk(s, s.calls[i].key);
    forall k | 0 <= k < |s.calls| && k != i ensures CallOk(Proceed(s, s.calls[i], fault, conv).0, s.calls[k]) {
      assert CallOk(s, s.calls[k]);
      StepBeside(s, s.calls[i], fault, conv, s.calls[k]);
    }
  }

  lemma OtherKeys(s: Server, i: nat, fault: Fault, conv: Conversion, key: string)
    requires Safe(s) && i < |s.calls| && key != s.calls[i].key
    ensures KeyOk(Proceed(s, s.calls[i], fault, conv).0, key)
  {
    assert KeyOk(s, key);
    StepElsewhere(s, s.calls[i], fault, conv, key);
  }

  lemma KeysRely(s: Server, i: nat, fault: Fault, conv: Conversion)
    requires Safe(s) && i < |s.calls|
    ensures forall key :: key != s.calls[i].key ==> KeyOk(Proceed(s, s.calls[i], fault, conv).0, key)
  {
    forall key | key != s.calls[i].key ensures KeyOk(Proceed(s, s.calls[i], fault, conv).0, key) {
      OtherKeys(s, i, fault, conv, key);
    }
  }

  /** What a step does for its own call and key. */
  lemma StepOwn(s: Server, call: Call, fault: Fault, conv: Conversion)
    requires KeyOk(s, call.key) && CallOk(s, call) && s.finance == Run(EMPTY, Commands(s.history))
    ensures var (t, phase) := Proceed(s, call, fault, conv);
            && KeyOk(t, call.key) && CallOk(t, call.(phase := phase))
            && t.finance == Run(EMPTY, Commands(t.history))
  {
    if RunsHandler(call, fault) {
      HandlingKey(s, call, Execute(s.finance, call.command), Heard(fault, conv));
      FinanceAfter(s, Some(call.key), call.command, Heard(fault, conv).Converts?);
    } else {
      StepKey(s, call, fault, conv);
    }
  }

  /** The parts of a step's safety make up the whole. */
  lemma StepMakes(s: Server, i: nat, t: Server, next: Call)
    requires i < |s.calls| && next.key == s.calls[i].key
    requires KeyOk(t, next.key) && CallOk(t, next) && t.finance == Run(EMPTY, Commands(t.history))
    requires forall k :: 0 <= k < |s.calls| && k != i ==> CallOk(t, s.calls[k])
    requires forall key :: key != next.key ==> KeyOk(t, key)
    requires OneOwner(s.calls[i := next])
    ensures Safe(t.(calls := s.calls[i := next]))
  {
    SafeWith(t, s.calls[i := next]);
  }

  /** A step that has answered phase phase and left the server t. */
  lemma StepIs(s: Server, i: nat, fault: Fault, conv: Conversion) returns (t: Server, next: Call)
    requires i < |s.calls|
    ensures (t, next.phase) == Proceed(s, s.calls[i], fault, conv) && next == s.calls[i].(phase := next.phase)
    ensures Act(s, Step(i, fault, conv)) == t.(calls := s.calls[i := next])
  {
    var (u, phase) := Proceed(s, s.calls[i], fault, conv);
    t, next := u, s.calls[i].(phase := phase);
  }

  lemma StepSafe(s: Server, i: nat, fault: Fault, conv: Conversion)
    requires Safe(s) && i < |s.calls|
    ensures Safe(Act(s, Step(i, fault, conv)))
  {
    var t, next := StepIs(s, i, fault, conv);
    assert CallOk(s, s.calls[i]) && KeyOk(s, s.calls[i].key);
    StepOwn(s, s.calls[i], fault, conv);
    OthersRely(s, i, fault, conv);
    KeysRely(s, i, fault, conv);
    OwnersApart(s, i, fault, conv);
    StepMakes(s, i, t, next);
  }

  lemma SafeWith(t: Server, calls: seq<Call>)
    requires OneOwner(calls) && t.finance == Run(EMPTY, Commands(t.history))
    requires forall k :: 0 <= k < |calls| ==> CallOk(t, calls[k])
    requires forall key :: KeyOk(t, key)
    ensures Safe(t.(calls := calls))
  {
    var u := t.(calls := calls);
    forall k | 0 <= k < |calls| ensures CallOk(u, calls[k]) {
      assert CallOk(t, calls[k]);
    }
    forall key ensures KeyOk(u, key) {
      assert KeyOk(t, key);
    }
  }

  lemma ReceiveSafe(s: Server, key: string, c: Command)
    requires Safe(s)
    ensures Safe(Act(s, Receive(key, c)))
  {
    SafeWith(s, s.calls + [Call(key, c, Arrived)]);
  }

  lemma CrashSafe(s: Server, i: nat)
    requires Safe(s)
    ensures Safe(Act(s, Crash(i)))
  {
    if i < |s.calls| {
      SafeWith(s, s.calls[i := s.calls[i].(phase := Answered(Failed))]);
    }
  }

  lemma DirectSafe(s: Server, c: Command)
    requires Safe(s)
    ensures Safe(Act(s, Direct(c)))
  {
    var t := Act(s, Direct(c));
    FinanceAfter(s, None, c, false);
    forall key ensures Kept(t.history, key) == Kept(s.history, key) && KeyOk(t, key) {
      assert KeyOk(s, key);
      KeptAfter(s, Execute(s.finance, c), None, c, false, key);
    }
    forall k | 0 <= k < |t.calls| ensures CallOk(t, t.calls[k]) {
      assert CallOk(s, s.calls[k]);
    }
  }

  lemma EvictSafe(s: Server, key: string)
    requires Safe(s)
    ensures Safe(Act(s, Evict(key)))
  {
    var t := Act(s, Evict(key));
    forall k ensures KeyOk(t, k) {
      assert KeyOk(s, k);
    }
    forall k | 0 <= k < |t.calls| ensures CallOk(t, t.calls[k]) {
      assert CallOk(s, s.calls[k]);
    }
  }

  /** Every interleaving of calls, retries, crashes, evictions and failing stores is safe. */
  lemma {:induction false} ServeSafe(actions: seq<Action>)
    ensures Safe(Serve(IDLE, actions))
  {
    if actions != [] {
      var s, a := Serve(IDLE, actions[..|actions| - 1]), actions[|actions| - 1];
      ServeSafe(actions[..|actions| - 1]);
      match a
      case Receive(key, c) => ReceiveSafe(s, key, c);
      case Direct(c) => DirectSafe(s, c);
      case Step(i, fault, conv) =>
        if i < |s.calls| {
          StepSafe(s, i, fault, conv);
        }
      case Crash(i) => CrashSafe(s, i);
      case Evict(key) => EvictSafe(s, key);
    }
  }
}
