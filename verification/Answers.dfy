/** What one call of a key is answered, whatever has happened before it in any interleaving. */
module Answers {
  import opened Results
  import opened Machine
  import opened Idempotency
  import opened Deduplication
  import opened Guards

  /** The stores answer until it is known whether the key has been used. */
  predicate SoundBegin(faults: Faults) {
    faults.lookUp == NoFault && faults.insert == NoFault && faults.read == NoFault
  }

  lemma KeyIsOk(pre: seq<Action>, key: string)
    ensures KeyOk(Serve(IDLE, pre), key)
  {
    ServeSafe(pre);
  }

  /** A call without a key is refused. */
  lemma KeylessRefused(s: Server, c: Command, faults: Faults, conv: Conversion)
    ensures Finish(s, Call("", c, Arrived), faults, conv) == (s, KeyRequired)
  {}

  lemma MissReads(s: Server, key: string, c: Command, faults: Faults, conv: Conversion)
    requires key != "" && key !in s.cache && key in s.rows && SoundBegin(faults)
    ensures Finish(s, Call(key, c, Arrived), faults, conv) == Finish(s, Call(key, c, InsertLost), faults, conv)
  {
    assert Finish(s, Call(key, c, Arrived), faults, conv) == Finish(s, Call(key, c, CacheMissed), faults, conv);
    assert Finish(s, Call(key, c, CacheMissed), faults, conv) == Finish(s, Call(key, c, InsertLost), faults, conv);
  }

  /** A call whose key is being processed is told so; it waits for nothing and runs nothing. */
  lemma ProcessingConflicts(pre: seq<Action>, key: string, c: Command, faults: Faults, conv: Conversion)
    requires var s := Serve(IDLE, pre); key != "" && key in s.rows && s.rows[key] == Processing && SoundBegin(faults)
    ensures Finish(Serve(IDLE, pre), Call(key, c, Arrived), faults, conv) == (Serve(IDLE, pre), Conflict)
  {
    KeyIsOk(pre, key);
    MissReads(Serve(IDLE, pre), key, c, faults, conv);
  }

  /** A stored snapshot as an answer. */
  function ReplayAs(reply: Reply, conv: Conversion): Answer {
    if conv.Converts? then Replayed(reply) else Failed
  }

  lemma ReadRefills(s: Server, key: string, c: Command, faults: Faults, conv: Conversion, reply: Reply)
    requires key in s.rows && s.rows[key] == Completed(Some(reply)) && SoundBegin(faults)
    ensures Finish(s, Call(key, c, InsertLost), faults, conv) ==
            (s.(cache := if faults.refill == NotDone then s.cache else s.cache[key := Some(reply)]), ReplayAs(reply, conv))
  {
    var t := s.(cache := if faults.refill == NotDone then s.cache else s.cache[key := Some(reply)]);
    assert Finish(s, Call(key, c, InsertLost), faults, conv) == Finish(s, Call(key, c, Refilling(reply)), faults, conv);
    assert Finish(s, Call(key, c, Refilling(reply)), faults, conv) ==
           Finish(t, Call(key, c, Answered(ReplayAs(reply, conv))), faults, conv);
  }

  /** A call whose key is COMPLETED is answered with the stored snapshot, whether it is still cached or not, and whatever it asks
      for; it runs nothing and writes no row, and the snapshot is cached again unless that fails. */
  lemma CompletedReplays(pre: seq<Action>, key: string, c: Command, faults: Faults, conv: Conversion, reply: Reply)
    requires var s := Serve(IDLE, pre);
             key != "" && key in s.rows && s.rows[key] == Completed(Some(reply)) && SoundBegin(faults)
    ensures var s := Serve(IDLE, pre);
            Finish(s, Call(key, c, Arrived), faults, conv) ==
            (s.(cache := if key !in s.cache && faults.refill == NotDone then s.cache else s.cache[key := Some(reply)]),
             ReplayAs(reply, conv))
  {
    var s := Serve(IDLE, pre);
    KeyIsOk(pre, key);
    if key in s.cache {
      assert s.cache[key := Some(reply)] == s.cache;
    } else {
      MissReads(s, key, c, faults, conv);
      ReadRefills(s, key, c, faults, conv, reply);
    }
  }

  /** Once a caller has been told a reply under a key, every later call of that key with sound stores is told the same reply and has
      no effect on finance, rows or history, whatever happens in between: further calls, crashes, evictions and failing stores. */
  lemma ToldIsReplayed(pre: seq<Action>, i: nat, key: string, reply: Reply, more: seq<Action>, c: Command, faults: Faults)
    requires i < |Serve(IDLE, pre).calls| && AnsweredWith(Serve(IDLE, pre).calls[i], key, reply)
    requires key != "" && SoundBegin(faults)
    ensures var s := Serve(IDLE, pre + more);
            var (t, answer) := Finish(s, Call(key, c, Arrived), faults, Converts);
            && answer == Replayed(reply)
            && t.finance == s.finance && t.rows == s.rows && t.history == s.history
            && (faults.refill == NoFault ==> key in t.cache && t.cache[key] == Some(reply))
  {
    ServeSafe(pre);
    assert CallOk(Serve(IDLE, pre), Serve(IDLE, pre).calls[i]);
    ServeMore(IDLE, pre, more);
    CompletedForever(Serve(IDLE, pre), more, key);
    CompletedReplays(pre + more, key, c, faults, Converts, reply);
  }

  /** A call whose key cannot be looked up, inserted or read is refused and runs nothing. */
  lemma FaultyBeginFails(s: Server, key: string, c: Command, faults: Faults, conv: Conversion)
    requires key != ""
    requires faults.lookUp != NoFault
             || (key !in s.cache && (faults.insert != NoFault || (key in s.rows && faults.read != NoFault)))
    ensures var (t, answer) := Finish(s, Call(key, c, Arrived), faults, conv);
            answer == Failed && t.finance == s.finance && t.history == s.history && t.cache == s.cache
  {
    if faults.lookUp == NoFault {
      BeginMisses(s, key, c, faults, conv);
      if faults.insert == NoFault {
        assert Finish(s, Call(key, c, CacheMissed), faults, conv) == Finish(s, Call(key, c, InsertLost), faults, conv);
      }
    }
  }

  lemma BeginMisses(s: Server, key: string, c: Command, faults: Faults, conv: Conversion)
    requires key != "" && key !in s.cache && faults.lookUp == NoFault
    ensures Finish(s, Call(key, c, Arrived), faults, conv) == Finish(s, Call(key, c, CacheMissed), faults, conv)
  {}

  // ---- a key that has no row -------------------------------------------------------------------

  lemma NewAcquires(s: Server, key: string, c: Command, faults: Faults, conv: Conversion)
    requires key != "" && key !in s.cache && key !in s.rows && SoundBegin(faults)
    ensures Finish(s, Call(key, c, Arrived), faults, conv) ==
            Finish(s.(rows := s.rows[key := Processing]), Call(key, c, Handling), faults, conv)
  {
    var t := s.(rows := s.rows[key := Processing]);
    assert Finish(s, Call(key, c, Arrived), faults, conv) == Finish(s, Call(key, c, CacheMissed), faults, conv);
    assert Finish(s, Call(key, c, CacheMissed), faults, conv) == Finish(t, Call(key, c, Handling), faults, conv);
  }

  lemma StoresReply(s: Server, key: string, c: Command, faults: Faults, conv: Conversion, reply: Reply)
    requires key in s.rows && s.rows[key] == Processing && faults.store == NoFault && faults.fill == NoFault
    ensures Finish(s, Call(key, c, Storing(reply)), faults, conv) ==
            (s.(rows := s.rows[key := Completed(Some(reply))], cache := s.cache[key := Some(reply)]), Fresh(reply))
  {
    var t := s.(rows := s.rows[key := Completed(Some(reply))]);
    assert Finish(s, Call(key, c, Storing(reply)), faults, conv) == Finish(t, Call(key, c, Caching(reply)), faults, conv);
    assert Finish(t, Call(key, c, Caching(reply)), faults, conv) ==
           Finish(t.(cache := t.cache[key := Some(reply)]), Call(key, c, Answered(Fresh(reply))), faults, conv);
  }

  lemma FreesKey(s: Server, rows: Rows, key: string, c: Command, faults: Faults, conv: Conversion, answer: Answer)
    requires key !in rows && s.rows == rows[key := Processing] && faults.undo == NoFault
    ensures Finish(s, Call(key, c, Undoing(answer)), faults, conv) == (s.(rows := rows), answer)
  {
    assert s.rows - {key} == rows;
    assert Finish(s, Call(key, c, Undoing(answer)), faults, conv) ==
           Finish(s.(rows := rows), Call(key, c, Answered(answer)), faults, conv);
  }

  lemma RunsOn(s: Server, key: string, c: Command, faults: Faults, conv: Conversion)
    requires faults.handle == NoFault
    ensures var d := Execute(s.finance, c);
            Finish(s, Call(key, c, Handling), faults, conv) ==
            Finish(Handled(s, d, Some(key), c, conv.Converts?), Call(key, c, AfterHandler(d, conv)), faults, conv)
  {}

  /** The first call of a key runs its command. When that succeeds and its reply is stored, the caller is told it, and it is in
      the row and in the cache; when it fails, or its reply is no message, the key is free again. */
  lemma NewKeyRuns(pre: seq<Action>, key: string, c: Command, faults: Faults, conv: Conversion)
    requires key != "" && key !in Serve(IDLE, pre).rows && SoundBegin(faults) && faults.handle == NoFault
    requires faults.store == NoFault && faults.fill == NoFault && faults.undo == NoFault
    ensures var s := Serve(IDLE, pre);
            var d := Execute(s.finance, c);
            var (t, answer) := Finish(s, Call(key, c, Arrived), faults, conv);
            && t.finance == d.state
            && (if d.result.Ok? && conv.Converts?
                then
                  && answer == Fresh(d.result.value)
                  && t.rows == s.rows[key := Completed(Some(d.result.value))]
                  && t.cache == s.cache[key := Some(d.result.value)]
                  && t.history == s.history + [Executed(Some(key), c, Some(d.result.value), true)]
                else
                  && answer == (if d.result.Ok? && conv.NotProto? then Unrecorded(d.result.value) else Failed)
                  && t.rows == s.rows && t.cache == s.cache)
  {
    var s := Serve(IDLE, pre);
    var d := Execute(s.finance, c);
    KeyIsOk(pre, key);
    NewAcquires(s, key, c, faults, conv);
    var begun := s.(rows := s.rows[key := Processing]);
    RunsOn(begun, key, c, faults, conv);
    var ran := Handled(begun, d, Some(key), c, conv.Converts?);
    match AfterHandler(d, conv)
    case Storing(reply) => StoresReply(ran, key, c, faults, conv, reply);
    case Undoing(answer) => FreesKey(ran, s.rows, key, c, faults, conv, answer);
  }

  lemma UndoAnswers(s: Server, key: string, c: Command, faults: Faults, conv: Conversion, answer: Answer)
    ensures Finish(s, Call(key, c, Undoing(answer)), faults, conv).1 == answer
    ensures Finish(s, Call(key, c, Undoing(answer)), faults, conv).0.finance == s.finance
  {
    var (t, phase) := Proceed(s, Call(key, c, Undoing(answer)), faults.undo, conv);
    assert Finish(s, Call(key, c, Undoing(answer)), faults, conv) == Finish(t, Call(key, c, phase), faults, conv);
  }

  lemma HandlesBadly(s: Server, key: string, c: Command, faults: Faults, conv: Conversion)
    requires faults.handle != NoFault
    ensures var (t, answer) := Finish(s, Call(key, c, Handling), faults, conv);
            answer == Failed && t.finance == if faults.handle == NotDone then s.finance else Execute(s.finance, c).state
  {
    var (t, phase) := Proceed(s, Call(key, c, Handling), faults.handle, conv);
    assert phase == Undoing(Failed);
    assert Finish(s, Call(key, c, Handling), faults, conv) == Finish(t, Call(key, c, phase), faults, conv);
    UndoAnswers(t, key, c, faults, conv, Failed);
  }

  lemma CachesBadly(s: Server, key: string, c: Command, faults: Faults, conv: Conversion, reply: Reply)
    requires faults.fill != NoFault
    ensures var (t, answer) := Finish(s, Call(key, c, Caching(reply)), faults, conv);
            answer == Failed && t.finance == s.finance
  {
    var (t, phase) := Proceed(s, Call(key, c, Caching(reply)), faults.fill, conv);
    assert Finish(s, Call(key, c, Caching(reply)), faults, conv) == Finish(t, Call(key, c, phase), faults, conv);
  }

  lemma StoresBadly(s: Server, key: string, c: Command, faults: Faults, conv: Conversion, reply: Reply)
    requires faults.store != NoFault || faults.fill != NoFault
    ensures var (t, answer) := Finish(s, Call(key, c, Storing(reply)), faults, conv);
            answer == Failed && t.finance == s.finance
  {
    var (t, phase) := Proceed(s, Call(key, c, Storing(reply)), faults.store, conv);
    assert Finish(s, Call(key, c, Storing(reply)), faults, conv) == Finish(t, Call(key, c, phase), faults, conv);
    if phase.Caching? {
      CachesBadly(t, key, c, faults, conv, reply);
    }
  }

  /** When the handler's answer does not arrive, or its reply cannot be stored or cached, the caller is told of a failure,
      although the command may have taken effect. */
  lemma FaultyRunFails(pre: seq<Action>, key: string, c: Command, faults: Faults)
    requires key != "" && key !in Serve(IDLE, pre).rows && SoundBegin(faults)
    requires faults.handle != NoFault || faults.store != NoFault || faults.fill != NoFault
    ensures var s := Serve(IDLE, pre);
            var (t, answer) := Finish(s, Call(key, c, Arrived), faults, Converts);
            && answer == Failed
            && t.finance == if faults.handle == NotDone then s.finance else Execute(s.finance, c).state
  {
    var s := Serve(IDLE, pre);
    var begun := s.(rows := s.rows[key := Processing]);
    KeyIsOk(pre, key);
    NewAcquires(s, key, c, faults, Converts);
    if faults.handle != NoFault {
      HandlesBadly(begun, key, c, faults, Converts);
    } else {
      var d := Execute(s.finance, c);
      RunsOn(begun, key, c, faults, Converts);
      if d.result.Ok? {
        StoresBadly(Handled(begun, d, Some(key), c, true), key, c, faults, Converts, d.result.value);
      } else {
        UndoAnswers(Handled(begun, d, Some(key), c, true), key, c, faults, Converts, Failed);
      }
    }
  }

  // ---- as interleavings ------------------------------------------------------------------------

  /** Such a call is one of the interleavings: it comes in and takes its steps one after the other. */
  lemma NewCallIsServed(pre: seq<Action>, key: string, c: Command, faults: Faults, conv: Conversion) returns (steps: seq<Action>)
    ensures var s := Serve(IDLE, pre);
            var (t, answer) := Finish(s, Call(key, c, Arrived), faults, conv);
            Serve(IDLE, (pre + [Receive(key, c)]) + steps) == t.(calls := s.calls + [Call(key, c, Answered(answer))])
    ensures forall a :: a in steps ==> a.Step? && a.call == |Serve(IDLE, pre).calls| && a.conv == conv
  {
    var s := Serve(IDLE, pre);
    var arrived := pre + [Receive(key, c)];
    ServeOne(pre, Receive(key, c));
    FinishCalls(s, s.calls + [Call(key, c, Arrived)], Call(key, c, Arrived), faults, conv);
    steps := FinishIsServed(arrived, |s.calls|, faults, conv);
  }
}
