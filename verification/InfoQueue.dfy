/** The waiting queue of the request coordinator over whole runs: urgent first, and no overtaking. */
module InfoQueue {
  import opened Prelude
  import opened InfoSteps
  import opened InfoInvariants
  import opened InfoProtocol

  /** Task `a` waits ahead of task `b`. */
  ghost predicate Precedes(queue: seq<nat>, a: nat, b: nat) {
    exists i, j :: 0 <= i < j < |queue| && queue[i] == a && queue[j] == b
  }

  /** The steps of the queue: an urgent newcomer goes to the front, others to the back, only the front leaves. */
  predicate QueueStep(before: seq<nat>, after: seq<nat>, newcomer: nat) {
    || after == before
    || after == [newcomer] + before
    || after == before + [newcomer]
    || (before != [] && after == before[1..])
  }

  lemma StepMovesQueue(s: State, e: Event)
    requires Enabled(s, e) && HeadIn(s.chain, s.tasks, Pacing)
    ensures QueueStep(s.queue, Apply(s, e).queue, |s.tasks|) && |s.tasks| <= |Apply(s, e).tasks|
  {
    hide DoRequest, DoReserve, GrantTurn, DoFetch, FailAttempt, Succeed, Retry, DoRelease, DoUnregister, StartTask,
         DropExpired;
    if Mover(s, e).Some? {
      hide Apply, Enabled, HeadIn, QueueStep;
      MoverMoves(s, e);
      SameQueueIsStep(s.queue, |s.tasks|);
    } else {
      match e
      case Tick(_) =>
      case TurnBegins =>
      case Request(key, urgent) =>
        RequestShape(s, key, urgent);
        if !Quiet(s, Apply(s, e)) {
          RequestStarts(s, key, urgent);
        }
      case Release(t) => ReleaseMovesQueue(s, t);
      case Unregister(t) => UnregisterMovesQueue(s, t);
    }
  }

  lemma SameQueueIsStep(queue: seq<nat>, newcomer: nat)
    ensures QueueStep(queue, queue, newcomer)
  {
  }

  lemma ReleaseMovesQueue(s: State, t: nat)
    requires Enabled(s, Release(t))
    ensures DoRelease(s, t).queue == (if s.queue == [] then [] else s.queue[1..])
    ensures |DoRelease(s, t).tasks| == |s.tasks|
  {
  }

  lemma UnregisterMovesQueue(s: State, t: nat)
    requires Enabled(s, Unregister(t))
    ensures DoUnregister(s, t).queue == s.queue && |DoUnregister(s, t).tasks| == |s.tasks|
  {
  }

  /** An urgent request that has to wait goes before all others and gets the next slot that is released. */
  lemma UrgentGoesNext(s: State, key: Key, u: nat)
    requires Lists(s.queue, s.tasks, Queued) && AnswerTo(s, key).Started? && s.active == s.cfg.maxConcurrency
    requires u < |s.tasks| && s.tasks[u].phase.Finishing?
    ensures var waiting, t := DoRequest(s, key, true), |s.tasks|;
      && waiting.queue == [t] + s.queue && At(waiting, t, Queued) && Enabled(waiting, Release(u))
      && At(Apply(waiting, Release(u)), t, Ready) && Apply(waiting, Release(u)).queue == s.queue
  {
    hide Lists, Lookup;
    var waiting := DoRequest(s, key, true);
    assert waiting.queue[1..] == s.queue;
  }

  lemma PrecedesMoves(before: seq<nat>, after: seq<nat>, newcomer: nat, a: nat, b: nat)
    requires QueueStep(before, after, newcomer) && Precedes(before, a, b) && a < newcomer
    ensures Precedes(after, a, b) || (a == before[0] && after == before[1..])
  {
    var i, j :| 0 <= i < j < |before| && before[i] == a && before[j] == b;
    if after == [newcomer] + before {
      assert after[i + 1] == a && after[j + 1] == b;
    } else if after == before + [newcomer] {
      assert after[i] == a && after[j] == b;
    } else if after != before && i > 0 {
      assert after[i - 1] == a && after[j - 1] == b;
    }
  }

  /** Task `b` has not left the queue before task `a`. */
  ghost predicate InTurn(s: State, a: nat, b: nat) {
    a < |s.tasks| && (a !in s.queue || Precedes(s.queue, a, b))
  }

  lemma StepKeepsTurn(s: State, e: Event, a: nat, b: nat)
    requires SlotsAccounted(s) && Paced(s) && Enabled(s, e) && InTurn(s, a, b)
    ensures InTurn(Apply(s, e), a, b)
  {
    HeadsInPhase(s);
    StepMovesQueue(s, e);
    QueueIsDistinct(s);
    hide SlotsAccounted, Paced, Enabled, Apply;
    if a in s.queue {
      PrecedesMoves(s.queue, Apply(s, e).queue, |s.tasks|, a, b);
    }
  }

  lemma QueueIsDistinct(s: State)
    requires SlotsAccounted(s)
    ensures forall i, j :: 0 <= i < j < |s.queue| ==> s.queue[i] != s.queue[j]
  {
  }

  lemma SoundSlots(s: State)
    requires Inv(s)
    ensures SlotsAccounted(s) && Paced(s)
  {
  }

  lemma InTurnMeans(s: State, a: nat, b: nat)
    requires InTurn(s, a, b)
    ensures b !in s.queue ==> a !in s.queue
  {
  }

  /** No overtaking: over any run, a task gets out of the queue only after every task that waited ahead of it. */
  lemma {:induction false} NoOvertaking(s: State, events: seq<Event>, end: State, a: nat, b: nat)
    requires Inv(s) && Runs(s, events, end) && InTurn(s, a, b)
    ensures b !in end.queue ==> a !in end.queue
    decreases |events|
  {
    hide Inv, Enabled, Apply, SlotsAccounted, Paced, InTurn;
    if events == [] {
      InTurnMeans(s, a, b);
    } else {
      StepKeepsInv(s, events[0]);
      SoundSlots(s);
      StepKeepsTurn(s, events[0], a, b);
      NoOvertaking(Apply(s, events[0]), events[1..], end, a, b);
    }
  }
}
