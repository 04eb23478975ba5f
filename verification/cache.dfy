/**
  The refresh-coordinated cache: a single result slot, the `updating` flag
  that keeps background refreshes from overlapping, and the background tasks
  a stale scrape spawns. Every operation is one atomic step; the only stretch
  that runs outside the lock is a background task's measurement, which sits
  between its `Begin` and `Finish` steps.
 */
module RefreshCache {
  import opened Optional
  import opened Measurements

  /** Constructor-level options: server id, label switch, refresh interval. */
  datatype Config = Config(serverID: string, showServerLabels: bool, interval: int)

  /**
    Where one background task is: spawned but not yet holding the lock,
    measuring (it won the check-and-set), committed (its result, if any, is
    stored but the flag is not yet cleared), or done.
   */
  datatype TaskPhase = Spawned | Measuring | Committed | Done

  /** A task in these phases has set `updating` and not yet cleared it. */
  predicate HoldsFlag(p: TaskPhase) {
    p.Measuring? || p.Committed?
  }

  predicate IsMeasuring(p: TaskPhase) {
    p.Measuring?
  }

  /** The cache slot, the flag, and every task spawned so far, by spawn order. */
  datatype State = State(cached: Option<Measurement>, updating: bool, tasks: seq<TaskPhase>)

  /** At process start: empty slot, no refresh in flight, no tasks. */
  const Init: State := State(None, false, [])

  /** What `cachedOrCollect` hands back: a result and possibly an error. */
  datatype Lookup = Lookup(result: Measurement, err: Option<RunError>)

  datatype CacheStep = CacheStep(state: State, lookup: Lookup)

  /** The number of tasks whose phase satisfies `f`. */
  function Count(tasks: seq<TaskPhase>, f: TaskPhase -> bool): nat
    decreases |tasks|
  {
    if |tasks| == 0 then 0 else (if f(tasks[0]) then 1 else 0) + Count(tasks[1..], f)
  }

  function Holders(tasks: seq<TaskPhase>): nat {
    Count(tasks, HoldsFlag)
  }

  function Measurers(tasks: seq<TaskPhase>): nat {
    Count(tasks, IsMeasuring)
  }

  /**
    The coordination invariant: at most one task holds the flag, the flag is
    set exactly when one does, and no task exists while the slot is empty.
   */
  predicate Inv(s: State) {
    && Holders(s.tasks) <= 1
    && (s.updating <==> Holders(s.tasks) == 1)
    && (s.cached.None? ==> |s.tasks| == 0)
  }

  /** A stored result is stale when its own age strictly exceeds the interval. */
  predicate Stale(cfg: Config, m: Measurement, now: int) {
    now - m.timestamp > cfg.interval
  }

  /**
    `collectAndCache`: run the tool; on success store its result (replacing
    any previous one, never expiring) and return it; on failure return the
    error with the zero-valued result and leave the slot alone.
   */
  function CollectAndCache(s: State, run: Outcome): (r: CacheStep)
    ensures r.state.updating == s.updating && r.state.tasks == s.tasks
    ensures r.lookup.result == run.Returned()
    ensures r.lookup.err.None? <==> run.Ok?
    ensures run.Ok? ==> r.state.cached == Some(run.result)
    ensures run.Err? ==> r.state.cached == s.cached && r.lookup.err == Some(run.error)
  {
    match run
    case Ok(m) => CacheStep(s.(cached := Some(m)), Lookup(m, None))
    case Err(e) => CacheStep(s, Lookup(Zero, Some(e)))
  }

  /**
    `cachedOrCollect`. Cold slot: measure synchronously through
    `CollectAndCache`. Warm slot: return the stored result with no error,
    whatever its age, and spawn one background task when it is stale.
   */
  function CachedOrCollect(cfg: Config, s: State, now: int, run: Outcome): (r: CacheStep)
    ensures s.cached.None? ==> r == CollectAndCache(s, run)
    ensures s.cached.Some? ==> r.lookup == Lookup(s.cached.value, None)
    ensures s.cached.Some? ==> r.state.cached == s.cached && r.state.updating == s.updating
    ensures r.lookup.err.None? <==> s.cached.Some? || run.Ok?
    ensures |s.tasks| <= |r.state.tasks| <= |s.tasks| + 1
    ensures r.state.tasks[..|s.tasks|] == s.tasks
    ensures |r.state.tasks| == |s.tasks| + 1 <==> s.cached.Some? && Stale(cfg, s.cached.value, now)
    ensures |r.state.tasks| != |s.tasks| + 1 ==> r.state.tasks == s.tasks
    ensures |r.state.tasks| == |s.tasks| + 1 ==> r.state.tasks[|s.tasks|] == Spawned
  {
    match s.cached
    case None => CollectAndCache(s, run)
    case Some(res) =>
      var tasks := if Stale(cfg, res, now) then s.tasks + [Spawned] else s.tasks;
      CacheStep(s.(tasks := tasks), Lookup(res, None))
  }

  /**
    A warm slot whose result is not older than the interval (an age equal
    to the interval included) is a plain hit: the stored result comes back
    with no error and the state does not change at all.
   */
  lemma FreshHitChangesNothing(cfg: Config, s: State, now: int, run: Outcome)
    requires s.cached.Some? && now - s.cached.value.timestamp <= cfg.interval
    ensures CachedOrCollect(cfg, s, now, run) == CacheStep(s, Lookup(s.cached.value, None))
  {
  }

  /**
    A warm slot whose result is strictly older than the interval still
    answers at once with the stored result, and adds exactly one spawned
    task; slot and flag are untouched.
   */
  lemma StaleHitSpawnsOneTask(cfg: Config, s: State, now: int, run: Outcome)
    requires s.cached.Some? && now - s.cached.value.timestamp > cfg.interval
    ensures CachedOrCollect(cfg, s, now, run)
         == CacheStep(s.(tasks := s.tasks + [Spawned]), Lookup(s.cached.value, None))
  {
  }

  predicate CanBegin(s: State, id: nat) {
    id < |s.tasks| && s.tasks[id].Spawned?
  }

  /**
    A spawned task takes the lock: if a refresh is already in flight it
    exits without measuring; otherwise it sets the flag and starts measuring.
    The decision looks only at the flag, not at the slot's age.
   */
  function Begin(s: State, id: nat): (r: State)
    requires CanBegin(s, id)
    ensures r.cached == s.cached && |r.tasks| == |s.tasks|
    ensures forall j :: 0 <= j < |s.tasks| && j != id ==> r.tasks[j] == s.tasks[j]
    ensures s.updating ==> r.updating && r.tasks[id] == Done
    ensures !s.updating ==> r.updating && r.tasks[id] == Measuring
  {
    if s.updating then s.(tasks := s.tasks[id := Done])
    else s.(updating := true, tasks := s.tasks[id := Measuring])
  }

  predicate CanFinish(s: State, id: nat) {
    id < |s.tasks| && s.tasks[id].Measuring?
  }

  /**
    A measuring task's run ends and its `collectAndCache` commits: a success
    replaces the stored result, a failure leaves it unchanged. The flag stays
    set until `Release`.
   */
  function Finish(s: State, id: nat, run: Outcome): (r: State)
    requires CanFinish(s, id)
    ensures r.updating == s.updating && |r.tasks| == |s.tasks|
    ensures forall j :: 0 <= j < |s.tasks| && j != id ==> r.tasks[j] == s.tasks[j]
    ensures r.tasks[id] == Committed
    ensures run.Ok? ==> r.cached == Some(run.result)
    ensures run.Err? ==> r.cached == s.cached
  {
    var step := CollectAndCache(s, run);
    step.state.(tasks := s.tasks[id := Committed])
  }

  predicate CanRelease(s: State, id: nat) {
    id < |s.tasks| && s.tasks[id].Committed?
  }

  /** The task's deferred cleanup: under the lock, clear the flag and end. */
  function Release(s: State, id: nat): (r: State)
    requires CanRelease(s, id)
    ensures !r.updating && r.cached == s.cached && |r.tasks| == |s.tasks|
    ensures forall j :: 0 <= j < |s.tasks| && j != id ==> r.tasks[j] == s.tasks[j]
    ensures r.tasks[id] == Done
  {
    s.(updating := false, tasks := s.tasks[id := Done])
  }

  // Counting facts.

  lemma {:induction false} CountAppend(tasks: seq<TaskPhase>, p: TaskPhase, f: TaskPhase -> bool)
    ensures Count(tasks + [p], f) == Count(tasks, f) + (if f(p) then 1 else 0)
    decreases |tasks|
  {
    if |tasks| != 0 {
      assert (tasks + [p])[1..] == tasks[1..] + [p];
      CountAppend(tasks[1..], p, f);
    }
  }

  lemma {:induction false} CountUpdate(tasks: seq<TaskPhase>, i: nat, p: TaskPhase, f: TaskPhase -> bool)
    requires i < |tasks|
    ensures Count(tasks[i := p], f) + (if f(tasks[i]) then 1 else 0)
         == Count(tasks, f) + (if f(p) then 1 else 0)
    decreases |tasks|
  {
    if i != 0 {
      assert tasks[i := p][1..] == tasks[1..][i - 1 := p];
      CountUpdate(tasks[1..], i - 1, p, f);
    } else {
      assert tasks[i := p][1..] == tasks[1..];
    }
  }

  /** A measuring task holds the flag, so there are never more measurers than holders. */
  lemma {:induction false} MeasurersAtMostHolders(tasks: seq<TaskPhase>)
    ensures Measurers(tasks) <= Holders(tasks)
    decreases |tasks|
  {
    if |tasks| != 0 {
      MeasurersAtMostHolders(tasks[1..]);
    }
  }

  /** A task that holds the flag is counted among the holders. */
  lemma {:induction false} HolderCounted(tasks: seq<TaskPhase>, i: nat)
    requires i < |tasks| && HoldsFlag(tasks[i])
    ensures Holders(tasks) >= 1
    decreases |tasks|
  {
    if i != 0 {
      HolderCounted(tasks[1..], i - 1);
    }
  }

  // The invariant holds initially and every step preserves it.

  lemma InitInv()
    ensures Inv(Init)
  {
  }

  lemma CachedOrCollectPreservesInv(cfg: Config, s: State, now: int, run: Outcome)
    requires Inv(s)
    ensures Inv(CachedOrCollect(cfg, s, now, run).state)
  {
    var r := CachedOrCollect(cfg, s, now, run);
    if |r.state.tasks| == |s.tasks| + 1 {
      assert r.state.tasks == s.tasks + [Spawned];
      CountAppend(s.tasks, Spawned, HoldsFlag);
    }
  }

  lemma BeginPreservesInv(s: State, id: nat)
    requires Inv(s) && CanBegin(s, id)
    ensures Inv(Begin(s, id))
  {
    var r := Begin(s, id);
    CountUpdate(s.tasks, id, r.tasks[id], HoldsFlag);
    assert r.tasks == s.tasks[id := r.tasks[id]];
  }

  lemma FinishPreservesInv(s: State, id: nat, run: Outcome)
    requires Inv(s) && CanFinish(s, id)
    ensures Inv(Finish(s, id, run))
  {
    var r := Finish(s, id, run);
    CountUpdate(s.tasks, id, Committed, HoldsFlag);
    assert r.tasks == s.tasks[id := Committed];
  }

  lemma ReleasePreservesInv(s: State, id: nat)
    requires Inv(s) && CanRelease(s, id)
    ensures Inv(Release(s, id))
  {
    var r := Release(s, id);
    CountUpdate(s.tasks, id, Done, HoldsFlag);
    assert r.tasks == s.tasks[id := Done];
    HolderCounted(s.tasks, id);
  }

  /**
    Under the invariant at most one background measurement is running, and
    a cold slot (the only case that measures synchronously) has none.
   */
  lemma AtMostOneMeasurement(s: State)
    requires Inv(s)
    ensures Measurers(s.tasks) <= 1
    ensures s.cached.None? ==> Measurers(s.tasks) == 0 && !s.updating
  {
    MeasurersAtMostHolders(s.tasks);
  }
}
