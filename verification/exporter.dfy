/**
  The whole exporter as interleaved atomic steps: scrapes (each a full
  `Collect` under the lock, whose effect on the state is that of its
  lookup, since emitting samples changes nothing) and the three steps of
  every background task.
  A schedule is any sequence of enabled steps; the lemmas here hold for
  every schedule.
 */
module Exporter {
  import opened Optional
  import opened Measurements
  import opened RefreshCache
  import opened MetricAdapter
  import Runner

  /**
    One atomic step. A scrape carries the clock reading, what the tool would
    return if the scrape measures synchronously, and the call's duration; a
    task's `Finish` carries what its measurement returned.
   */
  datatype Event =
    | ScrapeAt(now: int, run: Outcome, elapsed: real)
    | BeginTask(id: nat)
    | FinishTask(id: nat, run: Outcome)
    | ReleaseTask(id: nat)

  /**
    The command line built from the configuration: the collector hands its
    configured server id to the argument builder.
   */
  function RunArgs(cfg: Config): seq<string> {
    Runner.Args(cfg.serverID)
  }

  /**
    The configured server id is the one the command line selects: read
    back, it asks for JSON in bytes per second with both licences accepted,
    and selects that server exactly when one was configured.
   */
  lemma RunsUseConfiguredServer(cfg: Config)
    ensures Runner.Parse(RunArgs(cfg), Runner.NoOptions) == Some(Runner.Intended(cfg.serverID))
  {
    Runner.ArgsReadBack(cfg.serverID);
  }

  /** Whether the task an event names is in the phase that step needs. */
  predicate Enabled(s: State, e: Event) {
    match e
    case ScrapeAt(_, _, _) => true
    case BeginTask(id) => CanBegin(s, id)
    case FinishTask(id, _) => CanFinish(s, id)
    case ReleaseTask(id) => CanRelease(s, id)
  }

  function Next(cfg: Config, s: State, e: Event): State
    requires Enabled(s, e)
  {
    match e
    case ScrapeAt(now, run, _) => CachedOrCollect(cfg, s, now, run).state
    case BeginTask(id) => Begin(s, id)
    case FinishTask(id, run) => Finish(s, id, run)
    case ReleaseTask(id) => Release(s, id)
  }

  /** A scrape step leaves the state exactly as the full `Collect` does. */
  lemma ScrapeStepIsCollect(cfg: Config, s: State, now: int, run: Outcome, elapsed: real)
    ensures Next(cfg, s, ScrapeAt(now, run, elapsed)) == Collect(cfg, s, now, run, elapsed).state
  {
  }

  /** Runs a schedule; `None` when some step is not enabled where it occurs. */
  function Execute(cfg: Config, s: State, es: seq<Event>): Option<State>
    decreases |es|
  {
    if |es| == 0 then Some(s)
    else if !Enabled(s, es[0]) then None
    else Execute(cfg, Next(cfg, s, es[0]), es[1..])
  }

  /** The successful measurement a step stores, if it stores one. */
  function Delivered(s: State, e: Event): Option<Measurement> {
    match e
    case ScrapeAt(_, run, _) => if s.cached.None? && run.Ok? then Some(run.result) else None
    case FinishTask(_, run) => if run.Ok? then Some(run.result) else None
    case _ => None
  }

  lemma NextPreservesInv(cfg: Config, s: State, e: Event)
    requires Inv(s) && Enabled(s, e)
    ensures Inv(Next(cfg, s, e))
  {
    match e
    case ScrapeAt(now, run, _) => CachedOrCollectPreservesInv(cfg, s, now, run);
    case BeginTask(id) => BeginPreservesInv(s, id);
    case FinishTask(id, run) => FinishPreservesInv(s, id, run);
    case ReleaseTask(id) => ReleasePreservesInv(s, id);
  }

  /**
    Only a successful measurement changes the slot, and then it holds
    exactly that result: a failed run, a cache hit, and a task's lock steps
    leave the slot alone, and nothing ever empties it.
   */
  lemma NextSlot(cfg: Config, s: State, e: Event)
    requires Enabled(s, e)
    ensures var t := Next(cfg, s, e);
      && (Delivered(s, e).None? ==> t.cached == s.cached)
      && (Delivered(s, e).Some? ==> t.cached == Delivered(s, e))
      && (s.cached.Some? ==> t.cached.Some?)
  {
  }

  lemma {:induction false} ExecutePreservesInv(cfg: Config, s: State, es: seq<Event>)
    requires Inv(s)
    ensures Execute(cfg, s, es).Some? ==> Inv(Execute(cfg, s, es).value)
    decreases |es|
  {
    if |es| != 0 && Enabled(s, es[0]) {
      NextPreservesInv(cfg, s, es[0]);
      ExecutePreservesInv(cfg, Next(cfg, s, es[0]), es[1..]);
    }
  }

  /**
    In every reachable state at most one background measurement is running,
    at most one task holds the flag, the flag is set exactly when one does,
    and while the slot is empty (the only time a scrape measures itself) no
    background measurement runs.
   */
  lemma ReachableStates(cfg: Config, es: seq<Event>)
    requires Execute(cfg, Init, es).Some?
    ensures Inv(Execute(cfg, Init, es).value)
    ensures Measurers(Execute(cfg, Init, es).value.tasks) <= 1
    ensures Execute(cfg, Init, es).value.cached.None? ==> Measurers(Execute(cfg, Init, es).value.tasks) == 0
  {
    InitInv();
    ExecutePreservesInv(cfg, Init, es);
    AtMostOneMeasurement(Execute(cfg, Init, es).value);
  }

  /** Once the slot holds a result, no schedule empties it again. */
  lemma {:induction false} WarmStaysWarm(cfg: Config, s: State, es: seq<Event>)
    requires s.cached.Some?
    ensures Execute(cfg, s, es).Some? ==> Execute(cfg, s, es).value.cached.Some?
    decreases |es|
  {
    if |es| != 0 && Enabled(s, es[0]) {
      NextSlot(cfg, s, es[0]);
      WarmStaysWarm(cfg, Next(cfg, s, es[0]), es[1..]);
    }
  }

  /**
    After one successful measurement every later scrape reports `up` = 1,
    serves the stored result, and does not depend on what the tool would
    return: it never measures synchronously.
   */
  lemma UpAfterFirstSuccess(cfg: Config, s: State, es: seq<Event>, t: State,
                             now: int, run: Outcome, other: Outcome, elapsed: real)
    requires s.cached.Some? && Execute(cfg, s, es) == Some(t)
    ensures t.cached.Some?
    ensures CachedOrCollect(cfg, t, now, run).lookup == Lookup(t.cached.value, None)
    ensures var r := Collect(cfg, t, now, run, elapsed);
      forall i :: 0 <= i < 7 ==>
        IsReading(r.samples[i].metric) && r.samples[i].value == Reading(r.samples[i].metric, t.cached.value)
    ensures var r := Collect(cfg, t, now, run, elapsed);
      && r.samples[8] == Sample(Up, 1.0, [])
      && r == Collect(cfg, t, now, other, elapsed)
      && r.state.cached == t.cached
  {
    WarmStaysWarm(cfg, s, es);
  }

  /**
    A task that finds a refresh in flight exits without measuring: the
    number of running measurements does not grow.
   */
  lemma LoserDoesNotMeasure(s: State, id: nat)
    requires Inv(s) && CanBegin(s, id) && s.updating
    ensures Measurers(Begin(s, id).tasks) == Measurers(s.tasks)
    ensures Holders(Begin(s, id).tasks) == 1
  {
    var t := Begin(s, id);
    assert t.tasks == s.tasks[id := Done];
    CountUpdate(s.tasks, id, Done, IsMeasuring);
    CountUpdate(s.tasks, id, Done, HoldsFlag);
  }

  /** Running a schedule is running its first step, then the rest. */
  lemma ExecuteCons(cfg: Config, s: State, e: Event, rest: seq<Event>)
    requires Enabled(s, e)
    ensures Execute(cfg, s, [e] + rest) == Execute(cfg, Next(cfg, s, e), rest)
  {
  }

  /** Running two schedules back to back is running their concatenation. */
  lemma {:induction false} ExecuteAppend(cfg: Config, s: State, a: seq<Event>, b: seq<Event>)
    ensures Execute(cfg, s, a + b)
         == match Execute(cfg, s, a)
            case None => None
            case Some(t) => Execute(cfg, t, b)
    decreases |a|
  {
    if |a| == 0 {
      assert a + b == b;
    } else {
      assert (a + b)[0] == a[0];
      assert (a + b)[1..] == a[1..] + b;
      if Enabled(s, a[0]) {
        ExecuteAppend(cfg, Next(cfg, s, a[0]), a[1..], b);
      }
    }
  }

  /** Two scrapes of a stale result spawn two tasks, and the first wins the flag. */
  lemma StaleScrapesThenBegin(cfg: Config, s: State, now: int,
                              run1: Outcome, run2: Outcome, elapsed1: real, elapsed2: real)
    requires s.cached.Some? && Stale(cfg, s.cached.value, now) && !s.updating
    ensures var n := |s.tasks|;
      Execute(cfg, s, [ScrapeAt(now, run1, elapsed1), ScrapeAt(now, run2, elapsed2), BeginTask(n)])
        == Some(s.(updating := true, tasks := s.tasks + [Measuring, Spawned]))
  {
    var n := |s.tasks|;
    var e0, e1, e2 := ScrapeAt(now, run1, elapsed1), ScrapeAt(now, run2, elapsed2), BeginTask(n);
    var s1 := s.(tasks := s.tasks + [Spawned]);
    var s2 := s.(tasks := s.tasks + [Spawned, Spawned]);
    var s3 := s.(updating := true, tasks := s.tasks + [Measuring, Spawned]);
    assert s1.tasks + [Spawned] == s2.tasks;
    assert Next(cfg, s, e0) == s1;
    assert Next(cfg, s1, e1) == s2;
    assert s2.tasks[n := Measuring] == s3.tasks;
    assert Next(cfg, s2, e2) == s3;
    ExecuteCons(cfg, s2, e2, []);
    ExecuteCons(cfg, s1, e1, [e2]);
    ExecuteCons(cfg, s, e0, [e1, e2]);
  }

  /**
    The winner stores a fresh result and clears the flag; the second task
    then takes the lock, finds the flag clear, and starts measuring.
   */
  lemma WinnerDoneThenLateBegin(s: State, renewed: Measurement, cfg: Config)
    requires |s.tasks| >= 2
    requires s.updating && s.tasks[|s.tasks| - 2] == Measuring && s.tasks[|s.tasks| - 1] == Spawned
    ensures var n := |s.tasks| - 2;
      Execute(cfg, s, [FinishTask(n, Ok(renewed)), ReleaseTask(n), BeginTask(n + 1)])
        == Some(State(Some(renewed), true, s.tasks[n := Done][n + 1 := Measuring]))
  {
    var n := |s.tasks| - 2;
    var e3, e4, e5 := FinishTask(n, Ok(renewed)), ReleaseTask(n), BeginTask(n + 1);
    var s4 := State(Some(renewed), true, s.tasks[n := Committed]);
    var s5 := State(Some(renewed), false, s.tasks[n := Done]);
    var s6 := State(Some(renewed), true, s.tasks[n := Done][n + 1 := Measuring]);
    assert Next(cfg, s, e3) == s4;
    assert s4.tasks[n := Done] == s5.tasks;
    assert Next(cfg, s4, e4) == s5;
    assert Next(cfg, s5, e5) == s6;
    ExecuteCons(cfg, s5, e5, []);
    ExecuteCons(cfg, s4, e4, [e5]);
    ExecuteCons(cfg, s, e3, [e4, e5]);
  }

  /**
    The task's check-and-set looks only at the flag, never at the slot's
    age. Two scrapes of a stale result spawn two tasks; if the first task
    measures, stores a fresh result and clears the flag before the second
    takes the lock, the second measures again although the slot is fresh.
   */
  lemma LateTaskMeasuresAgain(cfg: Config, s: State, now: int, renewed: Measurement,
                               run1: Outcome, run2: Outcome, elapsed1: real, elapsed2: real)
    requires s.cached.Some? && Stale(cfg, s.cached.value, now) && !s.updating
    requires !Stale(cfg, renewed, now)
    ensures var n := |s.tasks|;
      var es := [ScrapeAt(now, run1, elapsed1), ScrapeAt(now, run2, elapsed2),
                 BeginTask(n), FinishTask(n, Ok(renewed)), ReleaseTask(n), BeginTask(n + 1)];
      Execute(cfg, s, es) == Some(State(Some(renewed), true, s.tasks + [Done, Measuring]))
  {
    var n := |s.tasks|;
    var first := [ScrapeAt(now, run1, elapsed1), ScrapeAt(now, run2, elapsed2), BeginTask(n)];
    var second := [FinishTask(n, Ok(renewed)), ReleaseTask(n), BeginTask(n + 1)];
    var s3 := s.(updating := true, tasks := s.tasks + [Measuring, Spawned]);
    StaleScrapesThenBegin(cfg, s, now, run1, run2, elapsed1, elapsed2);
    WinnerDoneThenLateBegin(s3, renewed, cfg);
    ExecuteAppend(cfg, s, first, second);
    assert first + second == [ScrapeAt(now, run1, elapsed1), ScrapeAt(now, run2, elapsed2),
                 BeginTask(n), FinishTask(n, Ok(renewed)), ReleaseTask(n), BeginTask(n + 1)];
    assert s3.tasks[n := Done][n + 1 := Measuring] == s.tasks + [Done, Measuring];
  }
}
