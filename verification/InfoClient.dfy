/**
 The coordinator object itself: its fields, updated in place by the code between
 two awaits. Every method is one step of the protocol in InfoSteps, and keeps
 the protocol's invariant.
 */
module InfoClient {
  import opened Prelude
  import opened InfoSteps
  import opened InfoInvariants
  import opened InfoProtocol

  lemma RequestKeepsInv(s: State, key: Key, urgent: bool)
    requires Inv(s)
    ensures Inv(DoRequest(s, key, urgent))
  {
    hide Inv, DoRequest;
    StepKeepsInv(s, Event.Request(key, urgent));
  }

  lemma ReleaseKeepsInv(s: State, t: nat)
    requires Inv(s) && Enabled(s, Release(t))
    ensures Inv(DoRelease(s, t)) && s.active > 0
  {
    hide Inv, Enabled, DoRelease, SlotsAccounted;
    InvHasSlots(s);
    ReleaseKeepsSlots(s, t);
    StepKeepsInv(s, Release(t));
  }

  lemma InvHasSlots(s: State)
    requires Inv(s)
    ensures SlotsAccounted(s)
  {
    hide SlotsAccounted, Paced, SingleFlight, Bounded, CacheAgrees;
  }

  /** The loop over a large cache that deletes what has expired. */
  method DropAllExpired(before: map<Key, Cached>, now: int) returns (cache: map<Key, Cached>)
    ensures cache == Prune(before, now)
  {
    cache := before;
    var keys := before.Keys;
    while keys != {}
      invariant keys <= before.Keys && cache.Keys <= before.Keys
      invariant forall k :: k in before && (k in keys || before[k].expiresAt > now) <==> k in cache
      invariant forall k :: k in cache ==> cache[k] == before[k]
    {
      var k :| k in keys;
      keys := keys - {k};
      if before[k].expiresAt <= now {
        cache := cache - {k};
      }
    }
  }

  class HyperliquidInfoClient {
    const cfg: Config
    var inFlight: map<Key, nat>
    var responseCache: map<Key, Cached>
    var queue: seq<nat>
    var activeCount: nat
    var nextRequestStartAt: int
    var paceChain: seq<nat>
    var paceWakeAt: Option<int>
    var stats: Stats
    var tasks: seq<Task>
    var clock: int
    ghost var grants: seq<int>
    ghost var latest: map<Key, Cached>

    ghost function View(): State
      reads this
    {
      State(cfg, clock, inFlight, responseCache, queue, activeCount, nextRequestStartAt, paceChain, paceWakeAt,
            stats, tasks, grants, latest)
    }

    constructor (maxConcurrency: int, maxRetries: int, minInterval: int, ttl: int, now: int)
      ensures cfg.maxConcurrency == (if maxConcurrency >= 1 then maxConcurrency else 1)
      ensures cfg.maxRetries == (if maxRetries >= 0 then maxRetries else 0)
      ensures cfg.minInterval == (if minInterval >= 0 then minInterval else 0)
      ensures cfg.ttl == (if ttl >= 0 then ttl else 0)
      ensures View() == Start(cfg, now) && Inv(View())
    {
      cfg := Config(if maxConcurrency >= 1 then maxConcurrency else 1, if maxRetries >= 0 then maxRetries else 0,
                    if minInterval >= 0 then minInterval else 0, if ttl >= 0 then ttl else 0);
      inFlight, responseCache, queue, activeCount := map[], map[], [], 0;
      nextRequestStartAt, paceChain, paceWakeAt := 0, [], None;
      stats, tasks, clock := Stats(0, 0, 0, 0, 0), [], now;
      grants, latest := [], map[];
      new;
      assert Holders(tasks) == {};
    }

    method Elapse(ms: nat)
      requires Inv(View())
      modifies this`clock
      ensures View() == Apply(old(View()), Tick(ms)) && Inv(View())
    {
      hide Inv;
      StepKeepsInv(View(), Tick(ms));
      clock := clock + ms;
    }

    /** Serves a request, synchronously up to its first await. */
    method Request(key: Key, urgent: bool) returns (answer: Answer)
      requires Inv(View())
      modifies this
      ensures View() == DoRequest(old(View()), key, urgent) && Inv(View())
      ensures answer == AnswerTo(old(View()), key)
    {
      hide Inv, Enabled;
      RequestKeepsInv(View(), key, urgent);
      stats := stats.(total := stats.total + 1);
      if key in responseCache {
        if responseCache[key].expiresAt > clock {
          stats := stats.(cached := stats.cached + 1);
          return Hit(responseCache[key].value);
        }
        responseCache := responseCache - {key};
      }
      if key in inFlight {
        stats := stats.(deduped := stats.deduped + 1);
        return Joined(inFlight[key]);
      }
      var t := |tasks|;
      AcquireSlot(key, urgent);
      inFlight := inFlight[key := t];
      answer := Started(t);
    }

    /** Creates the task of a request: with a slot if one is free, in the queue otherwise. */
    method AcquireSlot(key: Key, urgent: bool)
      modifies this`tasks, this`activeCount, this`queue
      ensures View().(inFlight := inFlight[key := old(|tasks|)]) == StartTask(old(View()), key, urgent)
    {
      var t := |tasks|;
      if activeCount < cfg.maxConcurrency {
        activeCount := activeCount + 1;
        tasks := tasks + [Task(key, 0, 0, Ready)];
        return;
      }
      tasks := tasks + [Task(key, 0, 0, Queued)];
      if urgent {
        queue := [t] + queue;
      } else {
        queue := queue + [t];
      }
    }

    /** The release of a finished task: its slot goes to the head of the queue, if there is one. */
    method ReleaseSlot(t: nat)
      requires Inv(View()) && Enabled(View(), Release(t))
      modifies this`tasks, this`activeCount, this`queue
      ensures View() == DoRelease(old(View()), t) && Inv(View())
      ensures activeCount == old(activeCount) - (if old(queue) == [] then 1 else 0)
    {
      hide Inv;
      ReleaseKeepsInv(View(), t);
      tasks := tasks[t := tasks[t].(phase := Settled(tasks[t].phase.result))];
      activeCount := if activeCount - 1 > 0 then activeCount - 1 else 0;
      if queue != [] {
        var next := queue[0];
        queue := queue[1..];
        activeCount := activeCount + 1;
        tasks := tasks[next := tasks[next].(phase := Ready)];
      }
    }

    method ReserveUpstreamTurn(t: nat)
      requires Inv(View()) && Enabled(View(), Reserve(t))
      modifies this`tasks, this`paceChain, this`grants
      ensures View() == DoReserve(old(View()), t) && Inv(View())
    {
      hide Inv;
      StepKeepsInv(View(), Reserve(t));
      if cfg.minInterval <= 0 {
        tasks := tasks[t := tasks[t].(phase := Granted)];
        grants := grants + [clock];
        return;
      }
      paceChain := paceChain + [t];
      tasks := tasks[t := tasks[t].(phase := Pacing)];
    }

    /** The head of the chain computes how long it has to sleep. */
    method PrepareTurn()
      requires Inv(View()) && Enabled(View(), TurnBegins)
      modifies this`paceWakeAt
      ensures View() == BeginTurn(old(View())) && Inv(View())
    {
      hide Inv;
      StepKeepsInv(View(), TurnBegins);
      var waitMs := if nextRequestStartAt - clock > 0 then nextRequestStartAt - clock else 0;
      paceWakeAt := Some(clock + waitMs);
    }

    /** After its sleep the head takes the turn and pushes the next one out by the interval. */
    method TakeTurn()
      requires Inv(View()) && Enabled(View(), TurnGranted)
      modifies this`tasks, this`nextRequestStartAt, this`paceChain, this`paceWakeAt, this`grants
      ensures View() == GrantTurn(old(View())) && Inv(View())
    {
      hide Inv;
      StepKeepsInv(View(), TurnGranted);
      var t := paceChain[0];
      nextRequestStartAt := clock + cfg.minInterval;
      paceChain := paceChain[1..];
      paceWakeAt := None;
      tasks := tasks[t := tasks[t].(phase := Granted)];
      grants := grants + [clock];
    }

    method StartFetch(t: nat)
      requires Inv(View()) && Enabled(View(), Fetch(t))
      modifies this`tasks
      ensures View() == DoFetch(old(View()), t) && Inv(View())
    {
      hide Inv;
      StepKeepsInv(View(), Fetch(t));
      tasks := tasks[t := tasks[t].(phase := Fetching, fetches := tasks[t].fetches + 1)];
    }

    /** An attempt failed, by network error or by a refused response. */
    method AttemptFailed(t: nat, retriable: bool)
      requires Inv(View()) && Enabled(View(), FetchRefused(t, retriable))
      modifies this`tasks, this`stats
      ensures View() == FailAttempt(old(View()), t, retriable) && Inv(View())
    {
      hide Inv;
      StepKeepsInv(View(), FetchRefused(t, retriable));
      if !retriable || tasks[t].attempt >= cfg.maxRetries {
        stats := stats.(failures := stats.failures + 1);
        tasks := tasks[t := tasks[t].(phase := Finishing(Rejected))];
        return;
      }
      stats := stats.(retries := stats.retries + 1);
      tasks := tasks[t := tasks[t].(phase := Backoff)];
    }

    /** After its backoff a task makes its next attempt. */
    method Resume(t: nat)
      requires Inv(View()) && Enabled(View(), WakeUp(t))
      modifies this`tasks
      ensures View() == Retry(old(View()), t) && Inv(View())
    {
      hide Inv;
      StepKeepsInv(View(), WakeUp(t));
      tasks := tasks[t := tasks[t].(phase := Ready, attempt := tasks[t].attempt + 1)];
    }

    /** A good response starts to deliver its body; a body that cannot be read ends the task at once. */
    method ReceiveBody(t: nat, readable: bool)
      requires Inv(View()) && Enabled(View(), if readable then FetchOk(t) else ParseFails(t))
      modifies this`tasks
      ensures View() == Move(old(View()), t, if readable then Parsing else Finishing(Rejected)) && Inv(View())
    {
      hide Inv;
      StepKeepsInv(View(), if readable then FetchOk(t) else ParseFails(t));
      tasks := tasks[t := tasks[t].(phase := if readable then Parsing else Finishing(Rejected))];
    }

    /** The body arrived: the response is remembered and the task has its result. */
    method Succeeded(t: nat, value: Response)
      requires Inv(View()) && Enabled(View(), ParseOk(t, value))
      modifies this`tasks, this`responseCache, this`latest
      ensures View() == Succeed(old(View()), t, value) && Inv(View())
    {
      hide Inv, Prune;
      StepKeepsInv(View(), ParseOk(t, value));
      RememberResponse(tasks[t].key, value);
      latest := latest[tasks[t].key := Cached(value, clock + cfg.ttl)];
      tasks := tasks[t := tasks[t].(phase := Finishing(Fulfilled(value)))];
    }

    /** Stores a response and, once the cache is large, drops what has expired. */
    method RememberResponse(key: Key, value: Response)
      modifies this`responseCache
      ensures View() == Remember(old(View()), key, value)
    {
      hide Prune;
      if cfg.ttl <= 0 {
        return;
      }
      responseCache := responseCache[key := Cached(value, clock + cfg.ttl)];
      if |responseCache| > CACHE_LIMIT {
        responseCache := DropAllExpired(responseCache, clock);
      }
    }

    /** The last step of a task: its key may be fetched anew. */
    method UnregisterTask(t: nat)
      requires Inv(View()) && Enabled(View(), Unregister(t))
      modifies this`tasks, this`inFlight
      ensures View() == DoUnregister(old(View()), t) && Inv(View())
    {
      hide Inv;
      StepKeepsInv(View(), Unregister(t));
      var key := tasks[t].key;
      if key in inFlight && inFlight[key] == t {
        inFlight := inFlight - {key};
      }
      tasks := tasks[t := tasks[t].(phase := Done(tasks[t].phase.result))];
    }
  }
}
