/** Keys that no call can ever use again: their row says PROCESSING and nobody is processing them. */
module StuckKeys {
  import opened Results
  import opened Machine
  import opened Idempotency
  import opened Deduplication
  import opened Guards
  import opened Answers

  /** Some call has acquired the key and not yet let go of it. */
  predicate Held(s: Server, key: string) {
    exists i :: 0 <= i < |s.calls| && Owns(s.calls[i]) && s.calls[i].key == key
  }

  predicate IsProcessing(s: Server, key: string) {
    key in s.rows && s.rows[key] == Processing
  }

  predicate Stuck(s: Server, key: string) {
    IsProcessing(s, key) && !Held(s, key)
  }

  // ---- stuck for good --------------------------------------------------------------------------

  /** A call of a stuck key, which in safe states is in none of the other phases, has got no further than this. */
  predicate Outside(call: Call) {
    call.phase.Arrived? || call.phase.CacheMissed? || call.phase.InsertLost? || call.phase.Answered?
  }

  predicate StuckFast(s: Server, key: string) {
    IsProcessing(s, key) && key !in s.cache && forall i :: 0 <= i < |s.calls| && s.calls[i].key == key ==> Outside(s.calls[i])
  }

  lemma StuckIsFast(s: Server, key: string)
    requires Safe(s) && Stuck(s, key)
    ensures StuckFast(s, key)
  {
    assert KeyOk(s, key);
    forall i | 0 <= i < |s.calls| && s.calls[i].key == key ensures Outside(s.calls[i]) {
      assert CallOk(s, s.calls[i]);
    }
  }

  lemma OutsideStays(s: Server, call: Call, fault: Fault, conv: Conversion)
    requires IsProcessing(s, call.key) && call.key !in s.cache && Outside(call)
    ensures var (t, phase) := Proceed(s, call, fault, conv);
            IsProcessing(t, call.key) && call.key !in t.cache && Outside(call.(phase := phase))
  {}

  lemma FastStep(s: Server, i: nat, fault: Fault, conv: Conversion, key: string)
    requires StuckFast(s, key) && i < |s.calls|
    ensures StuckFast(Act(s, Step(i, fault, conv)), key)
  {
    if s.calls[i].key == key {
      OutsideStays(s, s.calls[i], fault, conv);
    } else {
      StepElsewhere(s, s.calls[i], fault, conv, key);
    }
  }

  lemma {:induction false} FastForever(s: Server, more: seq<Action>, key: string)
    requires StuckFast(s, key)
    ensures StuckFast(Serve(s, more), key)
  {
    if more != [] {
      FastForever(s, more[..|more| - 1], key);
      var t, a := Serve(s, more[..|more| - 1]), more[|more| - 1];
      if a.Step? && a.call < |t.calls| {
        FastStep(t, a.call, a.fault, a.conv, key);
      }
    }
  }

  /** The owner of a key lets go of it in its next two steps when nothing goes wrong. */
  lemma OwnerLetsGo(s: Server, i: nat)
    requires i < |s.calls| && CallOk(s, s.calls[i]) && Owns(s.calls[i])
    ensures var go := Step(i, NoFault, Converts);
            !IsProcessing(Act(Act(s, go), go), s.calls[i].key)
  {
    var call := s.calls[i];
    var (t, phase) := Proceed(s, call, NoFault, Converts);
    assert Act(s, Step(i, NoFault, Converts)).calls[i] == call.(phase := phase);
  }

  ghost predicate ProcessingAfter(pre: seq<Action>, more: seq<Action>, key: string) {
    IsProcessing(Serve(IDLE, pre + more), key)
  }

  lemma HeldEnds(pre: seq<Action>, key: string)
    requires Held(Serve(IDLE, pre), key)
    ensures exists more :: !ProcessingAfter(pre, more, key)
  {
    var s := Serve(IDLE, pre);
    var i :| 0 <= i < |s.calls| && Owns(s.calls[i]) && s.calls[i].key == key;
    var go := Step(i, NoFault, Converts);
    ServeSafe(pre);
    assert CallOk(s, s.calls[i]);
    OwnerLetsGo(s, i);
    ServeOne(pre, go);
    ServeOne(pre + [go], go);
    assert pre + [go, go] == (pre + [go]) + [go];
    assert !ProcessingAfter(pre, [go, go], key);
  }

  /** Exactly when a key that is being processed is so for good, whatever calls, retries, crashes and evictions follow: when no
      call holds it. */
  lemma StuckForGoodIff(pre: seq<Action>, key: string)
    requires IsProcessing(Serve(IDLE, pre), key)
    ensures (forall more :: ProcessingAfter(pre, more, key)) <==> !Held(Serve(IDLE, pre), key)
  {
    if Held(Serve(IDLE, pre), key) {
      HeldEnds(pre, key);
    } else {
      ServeSafe(pre);
      StuckIsFast(Serve(IDLE, pre), key);
      forall more ensures ProcessingAfter(pre, more, key) {
        ServeMore(IDLE, pre, more);
        FastForever(Serve(IDLE, pre), more, key);
      }
    }
  }

  /** Every later call of such a key with sound stores is answered as a conflict and does nothing. */
  lemma StuckConflicts(pre: seq<Action>, more: seq<Action>, key: string, c: Command, faults: Faults, conv: Conversion)
    requires Stuck(Serve(IDLE, pre), key) && key != "" && SoundBegin(faults)
    ensures Finish(Serve(IDLE, pre + more), Call(key, c, Arrived), faults, conv) == (Serve(IDLE, pre + more), Conflict)
  {
    StuckForGoodIff(pre, key);
    assert ProcessingAfter(pre, more, key);
    ProcessingConflicts(pre + more, key, c, faults, conv);
  }

  // ---- how a key gets stuck --------------------------------------------------------------------

  /** The owner crashes, or its row could not be stored or deleted, or an insert took effect and reported a failure. */
  predicate LeavesBehind(s: Server, a: Action, key: string) {
    match a
    case Crash(i) => i < |s.calls| && s.calls[i].key == key && Owns(s.calls[i])
    case Step(i, fault, _) =>
      && i < |s.calls| && s.calls[i].key == key
      && (((s.calls[i].phase.Storing? || s.calls[i].phase.Undoing?) && fault == NotDone)
          || (s.calls[i].phase.CacheMissed? && fault == DoneButLost && key !in s.rows))
    case _ => false
  }

  lemma OnlyOwner(s: Server, i: nat, next: Call)
    requires OneOwner(s.calls) && i < |s.calls| && Owns(s.calls[i]) && next.key == s.calls[i].key && !Owns(next)
    ensures !Held(s.(calls := s.calls[i := next]), next.key)
  {}

  lemma OthersHold(s: Server, i: nat, next: Call, key: string)
    requires i < |s.calls| && (s.calls[i].key != key || !Owns(s.calls[i])) && next.key == s.calls[i].key
    ensures Held(s.(calls := s.calls[i := next]), key) <==> Held(s, key) || (Owns(next) && next.key == key)
  {
    var t := s.(calls := s.calls[i := next]);
    if Held(s, key) {
      var j :| 0 <= j < |s.calls| && Owns(s.calls[j]) && s.calls[j].key == key;
      assert t.calls[j] == s.calls[j];
    }
    if Owns(next) && next.key == key {
      assert t.calls[i] == next;
    }
  }

  lemma HeldIsProcessing(s: Server, key: string)
    requires Safe(s) && Held(s, key)
    ensures IsProcessing(s, key)
  {
    var i :| 0 <= i < |s.calls| && Owns(s.calls[i]) && s.calls[i].key == key;
    assert CallOk(s, s.calls[i]);
  }

  /** What a step of a call that owns its key does to the key's row. */
  lemma OwnerStep(s: Server, call: Call, fault: Fault, conv: Conversion)
    requires Owns(call) && IsProcessing(s, call.key)
    ensures var (t, phase) := Proceed(s, call, fault, conv);
            && (Owns(call.(phase := phase)) <==> call.phase.Handling?)
            && (IsProcessing(t, call.key) <==> call.phase.Handling? || fault == NotDone)
  {}

  /** What a step of any other call does to it. */
  lemma OtherStep(s: Server, call: Call, fault: Fault, conv: Conversion)
    requires !Owns(call) && CallOk(s, call) && KeyOk(s, call.key)
    ensures var (t, phase) := Proceed(s, call, fault, conv);
            var inserts := call.phase.CacheMissed? && call.key !in s.rows && fault != NotDone;
            && (IsProcessing(t, call.key) <==> IsProcessing(s, call.key) || inserts)
            && (Owns(call.(phase := phase)) <==> inserts && fault == NoFault)
  {}

  lemma StepSticksIff(s: Server, i: nat, fault: Fault, conv: Conversion, key: string)
    requires Safe(s) && i < |s.calls| && !Stuck(s, key)
    ensures Stuck(Act(s, Step(i, fault, conv)), key) <==> LeavesBehind(s, Step(i, fault, conv), key)
  {
    var call := s.calls[i];
    var (t, phase) := Proceed(s, call, fault, conv);
    var next := call.(phase := phase);
    assert CallOk(s, call) && KeyOk(s, call.key);
    HeldSteps(s, i, next);
    if call.key != key {
      StepElsewhere(s, call, fault, conv, key);
      OthersHold(s, i, next, key);
    } else if Owns(call) {
      OwnerStep(s, call, fault, conv);
    } else {
      OtherStep(s, call, fault, conv);
      OthersHold(s, i, next, key);
      if Held(s, key) {
        HeldIsProcessing(s, key);
      }
    }
  }

  lemma HeldSteps(s: Server, i: nat, next: Call)
    requires OneOwner(s.calls) && i < |s.calls| && next.key == s.calls[i].key
    ensures Owns(s.calls[i]) ==> (Held(s.(calls := s.calls[i := next]), next.key) <==> Owns(next))
  {
    if Owns(s.calls[i]) && !Owns(next) {
      OnlyOwner(s, i, next);
    } else if Owns(next) {
      assert s.(calls := s.calls[i := next]).calls[i] == next;
    }
  }

  lemma CrashSticksIff(s: Server, i: nat, key: string)
    requires Safe(s) && i < |s.calls| && !Stuck(s, key)
    ensures Stuck(Act(s, Crash(i)), key) <==> LeavesBehind(s, Crash(i), key)
  {
    var next := s.calls[i].(phase := Answered(Failed));
    assert CallOk(s, s.calls[i]);
    HeldSteps(s, i, next);
    if s.calls[i].key != key || !Owns(s.calls[i]) {
      OthersHold(s, i, next, key);
    }
  }

  /** Exactly when an action leaves a key stuck: when the owner crashes, when its row can be neither stored nor deleted, or when
      the insert of the key takes effect but is reported as failed. */
  lemma GetsStuckIff(pre: seq<Action>, a: Action, key: string)
    requires !Stuck(Serve(IDLE, pre), key)
    ensures Stuck(Serve(IDLE, pre + [a]), key) <==> LeavesBehind(Serve(IDLE, pre), a, key)
  {
    var s := Serve(IDLE, pre);
    ServeSafe(pre);
    ServeOne(pre, a);
    match a
    case Step(i, fault, conv) =>
      if i < |s.calls| {
        StepSticksIff(s, i, fault, conv, key);
      }
    case Crash(i) =>
      if i < |s.calls| {
        CrashSticksIff(s, i, key);
      }
    case Receive(k, c) => NewHolds(s, Call(k, c, Arrived), key);
    case _ =>
  }

  lemma NewHolds(s: Server, call: Call, key: string)
    requires !Owns(call)
    ensures Held(s.(calls := s.calls + [call]), key) <==> Held(s, key)
  {
    var t := s.(calls := s.calls + [call]);
    if Held(s, key) {
      var j :| 0 <= j < |s.calls| && Owns(s.calls[j]) && s.calls[j].key == key;
      assert t.calls[j] == s.calls[j];
    }
  }

  /** After any run, on an idle server too: a call that crashes in its handler leaves its key stuck. */
  lemma CrashSticks(pre: seq<Action>, key: string, c: Command)
    requires var s := Serve(IDLE, pre); key != "" && key !in s.rows && key !in s.cache
    ensures var n := |Serve(IDLE, pre).calls|;
            Stuck(Serve(IDLE, (pre + WholeCall(n, key, c, NoFault, Converts)[..3]) + [Crash(n)]), key)
  {
    var n := |Serve(IDLE, pre).calls|;
    var begun := pre + WholeCall(n, key, c, NoFault, Converts)[..3];
    Acquires(pre, key, c);
    assert Serve(IDLE, begun).calls[n] == Call(key, c, Handling);
    GetsStuckIff(begun, Crash(n), key);
  }
}
