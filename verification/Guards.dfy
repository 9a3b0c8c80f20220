/** The idempotency middleware as it runs: repository, cache, guard and interceptor, one call from start to end. */
module Guards {
  import opened Results
  import opened Machine
  import opened Idempotency

  /** What can go wrong in one call, operation by operation. */
  datatype Faults = Faults(lookUp: Fault, insert: Fault, read: Fault, refill: Fault, handle: Fault, undo: Fault, store: Fault,
                           fill: Fault)

  function FaultAt(faults: Faults, phase: Phase): Fault {
    match phase
    case Arrived => faults.lookUp
    case CacheMissed => faults.insert
    case InsertLost => faults.read
    case Refilling(_) => faults.refill
    case Handling => faults.handle
    case Undoing(_) => faults.undo
    case Storing(_) => faults.store
    case Caching(_) => faults.fill
    case _ => NoFault
  }

  /** The steps a call still has before it at most. */
  function Ahead(phase: Phase): nat {
    match phase
    case Arrived => 7
    case CacheMissed => 6
    case InsertLost => 5
    case Handling => 4
    case Storing(_) => 3
    case Caching(_) => 2
    case Refilling(_) => 1
    case Undoing(_) => 1
    case Answered(_) => 0
  }

  lemma ProceedAhead(s: Server, call: Call, fault: Fault, conv: Conversion)
    requires !call.phase.Answered?
    ensures Ahead(Proceed(s, call, fault, conv).1) < Ahead(call.phase)
  {}

  /** A call of the protocol run to its answer with nothing in between. */
  function Finish(s: Server, call: Call, faults: Faults, conv: Conversion): (Server, Answer)
    decreases Ahead(call.phase)
  {
    if call.phase.Answered? then (s, call.phase.answer)
    else
      ProceedAhead(s, call, FaultAt(faults, call.phase), conv);
      var (t, phase) := Proceed(s, call, FaultAt(faults, call.phase), conv);
      Finish(t, call.(phase := phase), faults, conv)
  }

  lemma ProceedCalls(s: Server, calls: seq<Call>, call: Call, fault: Fault, conv: Conversion)
    ensures var (t, phase) := Proceed(s, call, fault, conv);
            t.calls == s.calls && Proceed(s.(calls := calls), call, fault, conv) == (t.(calls := calls), phase)
  {}

  /** The other calls have no part in it. */
  lemma {:induction false} FinishCalls(s: Server, calls: seq<Call>, call: Call, faults: Faults, conv: Conversion)
    ensures var (t, answer) := Finish(s, call, faults, conv);
            t.calls == s.calls && Finish(s.(calls := calls), call, faults, conv) == (t.(calls := calls), answer)
    decreases Ahead(call.phase)
  {
    if !call.phase.Answered? {
      var fault := FaultAt(faults, call.phase);
      ProceedAhead(s, call, fault, conv);
      ProceedCalls(s, calls, call, fault, conv);
      var (t, phase) := Proceed(s, call, fault, conv);
      FinishCalls(t, calls, call.(phase := phase), faults, conv);
    }
  }

  lemma StepServed(pre: seq<Action>, i: nat, fault: Fault, conv: Conversion)
    requires i < |Serve(IDLE, pre).calls|
    ensures var s := Serve(IDLE, pre);
            var (t, phase) := Proceed(s, s.calls[i], fault, conv);
            Serve(IDLE, pre + [Step(i, fault, conv)]) == t.(calls := s.calls[i := s.calls[i].(phase := phase)])
  {}

  /** The rest of a call is the same after a step was recorded among the calls. */
  lemma FinishUnfolds(s: Server, call: Call, calls: seq<Call>, faults: Faults, conv: Conversion)
    requires !call.phase.Answered?
    ensures var (t, phase) := Proceed(s, call, FaultAt(faults, call.phase), conv);
            var (end, answer) := Finish(s, call, faults, conv);
            Finish(t.(calls := calls), call.(phase := phase), faults, conv) == (end.(calls := calls), answer)
  {
    var (t, phase) := Proceed(s, call, FaultAt(faults, call.phase), conv);
    FinishCalls(t, calls, call.(phase := phase), faults, conv);
  }

  /** Running a call without interruption is one of the protocol's interleavings, so all that is proved of every
      interleaving holds of it. */
  lemma {:induction false} FinishIsServed(pre: seq<Action>, i: nat, faults: Faults, conv: Conversion) returns (more: seq<Action>)
    requires i < |Serve(IDLE, pre).calls|
    ensures var s := Serve(IDLE, pre);
            var (t, answer) := Finish(s, s.calls[i], faults, conv);
            Serve(IDLE, pre + more) == t.(calls := s.calls[i := s.calls[i].(phase := Answered(answer))])
    ensures forall a :: a in more ==> a.Step? && a.call == i && a.conv == conv
    decreases Ahead(Serve(IDLE, pre).calls[i].phase)
  {
    var s := Serve(IDLE, pre);
    var call := s.calls[i];
    if call.phase.Answered? {
      more := [];
      assert pre + more == pre && s.calls[i := call] == s.calls;
    } else {
      var a := Step(i, FaultAt(faults, call.phase), conv);
      ProceedAhead(s, call, a.fault, conv);
      StepServed(pre, i, a.fault, conv);
      FinishUnfolds(s, call, Serve(IDLE, pre + [a]).calls, faults, conv);
      var rest := FinishIsServed(pre + [a], i, faults, conv);
      more := [a] + rest;
      assert pre + more == (pre + [a]) + rest;
    }
  }

  // ---- repository and cache --------------------------------------------------------------------

  datatype Begun = Acquired | Existing(row: Row) | BeginFailed

  class IdempotencyRepository {
    var rows: Rows

    constructor ()
      ensures rows == map[]
    {
      rows := map[];
    }

    method GetByKey(key: string, fault: Fault) returns (r: Option<Row>)
      ensures r == if fault == NoFault && key in rows then Some(rows[key]) else None
    {
      if fault != NoFault || key !in rows {
        return None;
      }
      return Some(rows[key]);
    }

    /** Inserts a PROCESSING row, or reads the one in the way in a second query. */
    method TryBeginProcessing(key: string, insert: Fault, read: Fault) returns (r: Begun)
      modifies this
      ensures rows == if insert == NotDone then old(rows) else Inserted(old(rows), key)
      ensures r == if insert != NoFault then BeginFailed
                   else if key !in old(rows) then Acquired
                   else if read != NoFault then BeginFailed
                   else Existing(old(rows)[key])
    {
      var acquired := false;
      if insert != NotDone && key !in rows {
        rows := rows[key := Processing];
        acquired := true;
      }
      if insert != NoFault {
        return BeginFailed;
      }
      if acquired {
        return Acquired;
      }
      var existing := GetByKey(key, read);
      if existing.None? {
        return BeginFailed;
      }
      return Existing(existing.value);
    }

    /** The conditional update; it fails when no PROCESSING row is there. */
    method Complete(key: string, snapshot: Option<Reply>, fault: Fault) returns (ok: bool)
      modifies this
      ensures rows == if fault == NotDone then old(rows) else Stored(old(rows), key, snapshot)
      ensures ok <==> fault == NoFault && key in old(rows) && old(rows)[key] == Processing
    {
      if fault == NotDone {
        return false;
      }
      if key !in rows || rows[key] != Processing {
        return false;
      }
      rows := rows[key := Completed(snapshot)];
      return fault == NoFault;
    }

    method DeleteProcessing(key: string, fault: Fault) returns (ok: bool)
      modifies this
      ensures rows == if fault == NotDone then old(rows) else Deleted(old(rows), key)
      ensures ok <==> fault == NoFault
    {
      if fault != NotDone && key in rows && rows[key] == Processing {
        rows := rows - {key};
      }
      return fault == NoFault;
    }
  }

  datatype Lookup = Hit(snapshot: Option<Reply>) | Miss | LookupFailed

  class IdempotencyCache {
    var entries: Cache

    constructor ()
      ensures entries == map[]
    {
      entries := map[];
    }

    method Get(key: string, fault: Fault) returns (r: Lookup)
      ensures r == if fault != NoFault then LookupFailed else if key in entries then Hit(entries[key]) else Miss
    {
      if fault != NoFault {
        return LookupFailed;
      }
      if key !in entries {
        return Miss;
      }
      return Hit(entries[key]);
    }

    method Set(key: string, snapshot: Option<Reply>, fault: Fault) returns (ok: bool)
      modifies this
      ensures entries == if fault == NotDone then old(entries) else old(entries)[key := snapshot]
      ensures ok <==> fault == NoFault
    {
      if fault != NotDone {
        entries := entries[key := snapshot];
      }
      return fault == NoFault;
    }
  }

  // ---- guard and interceptor -------------------------------------------------------------------

  /** What Begin tells the interceptor: an error, a snapshot to replay, or neither, and then the handler runs. */
  datatype Go = Refuse(answer: Answer) | ReplayOf(reply: Reply) | RunHandler

  /** The phase the call is in when Begin has answered. */
  function PhaseOf(go: Go, conv: Conversion): Phase {
    match go
    case Refuse(answer) => Answered(answer)
    case ReplayOf(reply) => Answered(if conv.Converts? then Replayed(reply) else Failed)
    case RunHandler => Handling
  }

  /** The phase the call is in when the handler has run. */
  function AfterRun(s: Server, c: Command, fault: Fault, conv: Conversion): Phase {
    if fault == NotDone then Undoing(Failed) else AfterHandler(Execute(s.finance, c), Heard(fault, conv))
  }

  class Guard {
    const repo: IdempotencyRepository
    const cache: IdempotencyCache

    constructor ()
      ensures fresh(repo) && fresh(cache) && repo.rows == map[] && cache.entries == map[]
    {
      repo := new IdempotencyRepository();
      cache := new IdempotencyCache();
    }

    /** The server with the guard's stores as they are now. */
    ghost function Now(s: Server): Server
      reads repo, cache
    {
      s.(rows := repo.rows, cache := cache.entries)
    }

    /** The call goes on from the phase that the answer stands for. */
    method Begin(key: string, faults: Faults, ghost s: Server, ghost c: Command, ghost conv: Conversion) returns (go: Go)
      requires Now(s) == s
      modifies repo, cache
      ensures Finish(s, Call(key, c, Arrived), faults, conv) ==
              Finish(Now(s), Call(key, c, PhaseOf(go, conv)), faults, conv)
    {
      ghost var missed := Call(key, c, CacheMissed);
      if key == "" {
        return Refuse(KeyRequired);
      }
      var cached := cache.Get(key, faults.lookUp);
      match cached {
        case LookupFailed => return Refuse(Failed);
        case Hit(snapshot) => return if snapshot.Some? then ReplayOf(snapshot.value) else RunHandler;
        case Miss =>
      }
      assert Finish(s, Call(key, c, Arrived), faults, conv) == Finish(s, missed, faults, conv);
      var begun := repo.TryBeginProcessing(key, faults.insert, faults.read);
      if faults.insert == NoFault && key in s.rows {
        assert Finish(s, missed, faults, conv) == Finish(s, Call(key, c, InsertLost), faults, conv);
      }
      match begun {
        case BeginFailed => return Refuse(Failed);
        case Acquired => return RunHandler;
        case Existing(row) =>
          match row {
            case Processing => return Refuse(Conflict);
            case Completed(snapshot) =>
              if snapshot.None? {
                return RunHandler;
              }
              ghost var found := Now(s);
              assert Finish(s, Call(key, c, InsertLost), faults, conv) ==
                     Finish(found, Call(key, c, Refilling(snapshot.value)), faults, conv);
              var ignored := cache.Set(key, snapshot, faults.refill);
              return ReplayOf(snapshot.value);
          }
      }
    }
  
    /** Stores the row and then fills the cache; the first that fails ends it. */
    method Complete(key: string, reply: Reply, faults: Faults, ghost s: Server, ghost c: Command, ghost conv: Conversion)
      returns (ok: bool)
      requires Now(s) == s
      modifies repo, cache
      ensures Finish(s, Call(key, c, Storing(reply)), faults, conv) ==
              Finish(Now(s), Call(key, c, Answered(if ok then Fresh(reply) else Failed)), faults, conv)
    {
      var stored := repo.Complete(key, Some(reply), faults.store);
      if !stored {
        return false;
      }
      ok := cache.Set(key, Some(reply), faults.fill);
    }

    /** Frees the key; the interceptor ignores whether that worked. */
    method Rollback(key: string, faults: Faults, ghost s: Server, ghost c: Command, ghost conv: Conversion, ghost answer: Answer)
      requires Now(s) == s
      modifies repo
      ensures Finish(s, Call(key, c, Undoing(answer)), faults, conv) ==
              Finish(Now(s), Call(key, c, Answered(answer)), faults, conv)
    {
      var ignored := repo.DeleteProcessing(key, faults.undo);
    }
  }

  class Interceptor {
    const guard: Guard
    var finance: State
    ghost var history: seq<Executed>

    constructor ()
      ensures fresh(guard) && fresh(guard.repo) && fresh(guard.cache)
      ensures Now() == IDLE
    {
      guard := new Guard();
      finance, history := EMPTY, [];
    }

    ghost function Now(): Server
      reads this, guard.repo, guard.cache
    {
      Server(finance, guard.repo.rows, guard.cache.entries, [], history)
    }

    /** The handler behind the interceptor; it may not run, or take effect and report a failure all the same. */
    method Handle(key: string, c: Command, fault: Fault, ghost conv: Conversion) returns (r: Result<Reply>)
      modifies this
      ensures fault == NotDone ==> Now() == old(Now())
      ensures fault != NotDone ==>
                Now() == Handled(old(Now()), Execute(old(finance), c), Some(key), c, Heard(fault, conv).Converts?)
      ensures r == if fault == NoFault then Execute(old(finance), c).result else Err(CommitFailed)
    {
      if fault == NotDone {
        return Err(CommitFailed);
      }
      var d := Execute(finance, c);
      history := history + Trace(finance, d, Some(key), c, Heard(fault, conv).Converts?);
      finance := d.state;
      return if fault == NoFault then d.result else Err(CommitFailed);
    }

    /** One guarded call: its effect on every store and its answer are those of the protocol run without interruption. */
    method Intercept(key: string, c: Command, faults: Faults, conv: Conversion) returns (answer: Answer)
      modifies this, guard.repo, guard.cache
      ensures (Now(), answer) == Finish(old(Now()), Call(key, c, Arrived), faults, conv)
    {
      ghost var s := Now();
      var go := guard.Begin(key, faults, s, c, conv);
      match go {
        case Refuse(a) => return a;
        case ReplayOf(reply) => return if conv.Converts? then Replayed(reply) else Failed;
        case RunHandler =>
      }
      ghost var begun := Now();
      assert Finish(s, Call(key, c, Arrived), faults, conv) == Finish(begun, Call(key, c, Handling), faults, conv);
      var r := Handle(key, c, faults.handle, conv);
      ghost var ran := Now();
      assert Finish(begun, Call(key, c, Handling), faults, conv) ==
             Finish(ran, Call(key, c, AfterRun(begun, c, faults.handle, conv)), faults, conv);
      if r.Err? {
        guard.Rollback(key, faults, ran, c, conv, Failed);
        return Failed;
      }
      match conv {
        case NotProto =>
          guard.Rollback(key, faults, ran, c, conv, Unrecorded(r.value));
          return Unrecorded(r.value);
        case ConversionFails =>
          guard.Rollback(key, faults, ran, c, conv, Failed);
          return Failed;
        case Converts =>
      }
      var ok := guard.Complete(key, r.value, faults, ran, c, conv);
      return if ok then Fresh(r.value) else Failed;
    }
  }
}
