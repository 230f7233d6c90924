/** What every step of the request coordinator keeps: slots, pacing, single flight, bounded attempts. */
module InfoInvariants {
  import opened Prelude
  import opened InfoSteps

  // ---- slots are kept ----

  lemma MoveKeepsSlots(s: State, s': State, t: nat)
    requires SlotsAccounted(s) && Moves(s, s', t)
    ensures SlotsAccounted(s')
  {
    HoldersUpdate(s.tasks, t, s'.tasks[t]);
    assert t in Holders(s.tasks) && Holders(s'.tasks) == Holders(s.tasks);
    SamePhaseKeepsLists(s.queue, s.tasks, t, s'.tasks[t], Queued);
  }

  lemma ReleaseKeepsSlots(s: State, t: nat)
    requires SlotsAccounted(s) && Enabled(s, Release(t))
    ensures SlotsAccounted(DoRelease(s, t))
    ensures s.active > 0
  {
    var settled := s.tasks[t].(phase := Settled(s.tasks[t].phase.result));
    var tasks := s.tasks[t := settled];
    assert t in Holders(s.tasks);
    HoldersUpdate(s.tasks, t, settled);
    SamePhaseKeepsLists(s.queue, s.tasks, t, settled, Queued);
    if s.queue != [] {
      var next := s.queue[0];
      assert next in s.queue;
      HoldersUpdate(tasks, next, tasks[next].(phase := Ready));
      RemoveFromLists(s.queue, tasks, tasks[next].(phase := Ready), Queued);
    }
  }

  lemma UnregisterKeepsSlots(s: State, t: nat)
    requires SlotsAccounted(s) && Enabled(s, Unregister(t))
    ensures SlotsAccounted(DoUnregister(s, t))
  {
    var done := s.tasks[t].(phase := Done(s.tasks[t].phase.result));
    HoldersUpdate(s.tasks, t, done);
    assert t !in Holders(s.tasks) && Holders(s.tasks[t := done]) == Holders(s.tasks);
    SamePhaseKeepsLists(s.queue, s.tasks, t, done, Queued);
  }

  lemma StartKeepsSlots(s: State, s': State, key: Key, urgent: bool)
    requires SlotsAccounted(s) && StartedFrom(s, s', key, urgent)
    ensures SlotsAccounted(s')
  {
    var task := s'.tasks[|s.tasks|];
    HoldersAppend(s.tasks, task);
    NewTaskLists(s.queue, s.tasks, task, Queued, urgent);
  }

  /** Slot accounting survives every step. */
  lemma StepKeepsSlots(s: State, e: Event)
    requires SlotsAccounted(s) && Enabled(s, e) && HeadIn(s.chain, s.tasks, Pacing)
    ensures SlotsAccounted(Apply(s, e))
  {
    hide DoRequest, DoReserve, GrantTurn, DoFetch, FailAttempt, Move, Succeed, Retry, DoRelease, DoUnregister,
         StartTask, DropExpired, StartedFrom, Moves;
    if Mover(s, e).Some? {
      hide Apply, Enabled, SlotsAccounted;
      MoverMoves(s, e);
      MoveKeepsSlots(s, Apply(s, e), Mover(s, e).value);
    } else {
      match e
      case Tick(_) =>
      case TurnBegins =>
      case Request(key, urgent) =>
        RequestShape(s, key, urgent);
        if !Quiet(s, Apply(s, e)) {
          hide SlotsAccounted;
          RequestStarts(s, key, urgent);
          StartKeepsSlots(s, Apply(s, e), key, urgent);
        }
      case Release(t) => ReleaseKeepsSlots(s, t);
      case Unregister(t) => UnregisterKeepsSlots(s, t);
    }
  }

  // ---- pacing ----

  ghost predicate Spaced(grants: seq<int>, interval: nat) {
    forall i, j :: 0 <= i < j < |grants| ==> grants[j] - grants[i] >= interval
  }

  ghost predicate Paced(s: State) {
    && Spaced(s.grants, s.cfg.minInterval)
    && (forall i :: 0 <= i < |s.grants| ==> s.grants[i] <= s.clock)
    && (s.cfg.minInterval > 0 ==> forall i :: 0 <= i < |s.grants| ==> s.grants[i] + s.cfg.minInterval <= s.nextStart)
    && Lists(s.chain, s.tasks, Pacing)
    && (s.wakeAt.Some? ==> s.chain != [] && s.wakeAt.value >= s.nextStart)
    && (s.cfg.minInterval == 0 ==> s.chain == [])
  }

  lemma OtherTaskKeepsPace(s: State, s': State, t: nat)
    requires Paced(s) && t < |s.tasks| && |s'.tasks| == |s.tasks| && s'.tasks == s.tasks[t := s'.tasks[t]]
    requires (s'.tasks[t].phase == Pacing) == (s.tasks[t].phase == Pacing)
    requires SamePace(s, s')
    ensures Paced(s')
  {
    SamePhaseKeepsLists(s.chain, s.tasks, t, s'.tasks[t], Pacing);
  }

  lemma ReleaseKeepsPace(s: State, t: nat)
    requires Paced(s) && Enabled(s, Release(t)) && HeadIn(s.queue, s.tasks, Queued)
    ensures Paced(DoRelease(s, t))
  {
    var settled := s.tasks[t].(phase := Settled(s.tasks[t].phase.result));
    var tasks := s.tasks[t := settled];
    SamePhaseKeepsLists(s.chain, s.tasks, t, settled, Pacing);
    if s.queue != [] {
      SamePhaseKeepsLists(s.chain, tasks, s.queue[0], tasks[s.queue[0]].(phase := Ready), Pacing);
    }
  }

  lemma ReserveKeepsPace(s: State, t: nat)
    requires Paced(s) && At(s, t, Ready)
    ensures Paced(DoReserve(s, t))
  {
    if s.cfg.minInterval == 0 {
      SamePhaseKeepsLists(s.chain, s.tasks, t, s.tasks[t].(phase := Granted), Pacing);
    } else {
      AppendToLists(s.chain, s.tasks, t, s.tasks[t].(phase := Pacing), Pacing);
    }
  }

  /** A granted turn comes at least the interval after every earlier one. */
  lemma GrantKeepsPace(s: State)
    requires Paced(s) && Enabled(s, TurnGranted)
    ensures Paced(GrantTurn(s))
  {
    assert s.chain[0] in s.chain;
    RemoveFromLists(s.chain, s.tasks, s.tasks[s.chain[0]].(phase := Granted), Pacing);
  }

  lemma RequestKeepsPace(s: State, s': State, key: Key, urgent: bool)
    requires Paced(s) && SamePace(s, s') && (Quiet(s, s') || StartedFrom(s, s', key, urgent))
    ensures Paced(s')
  {
    if StartedFrom(s, s', key, urgent) {
      NewTaskLists(s.chain, s.tasks, s'.tasks[|s.tasks|], Pacing, urgent);
    }
  }

  /** Pacing survives every step. */
  lemma StepKeepsPace(s: State, e: Event)
    requires Paced(s) && Enabled(s, e) && HeadIn(s.queue, s.tasks, Queued) && HeadIn(s.chain, s.tasks, Pacing)
    ensures Paced(Apply(s, e))
  {
    hide DoRequest, DoReserve, GrantTurn, DoFetch, FailAttempt, Move, Succeed, Retry, DoRelease, DoUnregister,
         StartTask, DropExpired, StartedFrom, Lists, SamePace, Quiet;
    if InAttempt(e) {
      hide Apply, Enabled, Paced;
      AttemptWorks(s, e);
      OtherTaskKeepsPace(s, Apply(s, e), Mover(s, e).value);
    } else {
      match e
      case Tick(_) =>
      case TurnBegins =>
      case Reserve(t) => ReserveKeepsPace(s, t);
      case TurnGranted => GrantKeepsPace(s);
      case Request(key, urgent) =>
        OthersOffPace(s, e);
        RequestShape(s, key, urgent);
        if key !in s.inFlight {
          RequestStarts(s, key, urgent);
        }
        RequestKeepsPace(s, Apply(s, e), key, urgent);
      case Release(t) => ReleaseKeepsPace(s, t);
      case Unregister(t) => UnregisterKeepsPace(s, t);
    }
  }

  lemma UnregisterKeepsPace(s: State, t: nat)
    requires Paced(s) && Enabled(s, Unregister(t))
    ensures Paced(DoUnregister(s, t))
  {
    OtherTaskKeepsPace(s, DoUnregister(s, t), t);
  }

  // ---- single flight ----

  /** Every task that is still registered is the one its key is registered for. */
  ghost predicate SingleFlight(s: State) {
    && (forall k :: k in s.inFlight ==>
          s.inFlight[k] < |s.tasks| && s.tasks[s.inFlight[k]].key == k && !s.tasks[s.inFlight[k]].phase.Done?)
    && (forall t :: 0 <= t < |s.tasks| && !s.tasks[t].phase.Done? ==>
          s.tasks[t].key in s.inFlight && s.inFlight[s.tasks[t].key] == t)
  }

  lemma MoveKeepsSingleFlight(s: State, s': State, t: nat)
    requires SingleFlight(s) && Moves(s, s', t)
    ensures SingleFlight(s')
  {
  }

  lemma ReleaseKeepsSingleFlight(s: State, t: nat)
    requires SingleFlight(s) && Enabled(s, Release(t)) && HeadIn(s.queue, s.tasks, Queued)
    ensures SingleFlight(DoRelease(s, t))
  {
  }

  lemma UnregisterKeepsSingleFlight(s: State, t: nat)
    requires SingleFlight(s) && Enabled(s, Unregister(t))
    ensures SingleFlight(DoUnregister(s, t))
  {
  }

  lemma StartKeepsSingleFlight(s: State, s': State, key: Key, urgent: bool)
    requires SingleFlight(s) && key !in s.inFlight && StartedFrom(s, s', key, urgent)
    ensures SingleFlight(s')
  {
  }

  /** Single flight survives every step. */
  lemma StepKeepsSingleFlight(s: State, e: Event)
    requires SingleFlight(s) && Enabled(s, e) && HeadIn(s.queue, s.tasks, Queued) && HeadIn(s.chain, s.tasks, Pacing)
    ensures SingleFlight(Apply(s, e))
  {
    hide DoRequest, DoReserve, GrantTurn, DoFetch, FailAttempt, Move, Succeed, Retry, DoRelease, DoUnregister,
         StartTask, DropExpired, StartedFrom, Moves;
    if Mover(s, e).Some? {
      hide Apply, Enabled, SingleFlight;
      MoverMoves(s, e);
      MoveKeepsSingleFlight(s, Apply(s, e), Mover(s, e).value);
    } else {
      match e
      case Tick(_) =>
      case TurnBegins =>
      case Request(key, urgent) =>
        RequestShape(s, key, urgent);
        if !Quiet(s, Apply(s, e)) {
          hide SingleFlight;
          RequestStarts(s, key, urgent);
          StartKeepsSingleFlight(s, Apply(s, e), key, urgent);
        }
      case Release(t) => ReleaseKeepsSingleFlight(s, t);
      case Unregister(t) => UnregisterKeepsSingleFlight(s, t);
    }
  }

  // ---- bounded attempts ----

  ghost predicate Bounded(s: State) {
    forall t :: 0 <= t < |s.tasks| ==> BoundedTask(s.tasks[t], s.cfg.maxRetries)
  }

  lemma ReleaseKeepsBounded(s: State, t: nat)
    requires Bounded(s) && Enabled(s, Release(t)) && HeadIn(s.queue, s.tasks, Queued)
    ensures Bounded(DoRelease(s, t))
  {
  }

  /** The bound on attempts survives every step. */
  lemma StepKeepsBounded(s: State, e: Event)
    requires Bounded(s) && Enabled(s, e) && HeadIn(s.queue, s.tasks, Queued) && HeadIn(s.chain, s.tasks, Pacing)
    ensures Bounded(Apply(s, e))
  {
    hide DoRequest, DoReserve, GrantTurn, DoFetch, FailAttempt, Move, Succeed, Retry, DoRelease,
         StartTask, DropExpired;
    if Mover(s, e).Some? {
      hide Apply, Enabled, BoundedTask;
      MoverMoves(s, e);
    } else {
      match e
      case Tick(_) =>
      case TurnBegins =>
      case Request(key, urgent) =>
        RequestShape(s, key, urgent);
        if !Quiet(s, Apply(s, e)) {
          RequestStarts(s, key, urgent);
        }
      case Release(t) => ReleaseKeepsBounded(s, t);
      case Unregister(t) => UnregisterKeepsBounded(s, t);
    }
  }

  lemma UnregisterKeepsBounded(s: State, t: nat)
    requires Bounded(s) && Enabled(s, Unregister(t))
    ensures Bounded(DoUnregister(s, t))
  {
  }
}
