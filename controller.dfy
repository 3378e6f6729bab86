/** controller.py: the shared `SystemData` holder that the collector thread refreshes
    from model.py and the page reads, and the start-once background thread. */
module Controller {
  import opened Wrappers
  import opened Identity
  import opened SystemMetrics
  import opened ProcessTable
  import opened Collector

  /** The default number of processes to fetch. */
  const DefaultLimit: int := 10

  /** The default collection interval, in seconds. */
  const DefaultInterval: int := 5

  /** The global figures before the first successful update: every figure zero. */
  const InitialGlobalInfo: GlobalMetrics :=
    GlobalMetrics(0.0, 0.0, 0, 0.0, 0.0, Some(Swap(0, 0, 0.0)), 0, 0, 0.0, 0.0)

  /** What the page reads: the global figures and the process rows. */
  datatype Snapshot = Snapshot(globalInfo: GlobalMetrics, processes: seq<ProcessRecord>)

  /** What `update` leaves published: both new results when both collectors returned,
      otherwise the previous pair, untouched. */
  function Published(cur: Snapshot, g: Option<GlobalMetrics>, p: Option<seq<ProcessRecord>>): Snapshot {
    if g.Some? && p.Some? then Snapshot(g.value, p.value) else cur
  }

  /** Every published pair has model.py's swap figures and rows sorted by CPU time. */
  predicate Consistent(s: Snapshot) {
    s.globalInfo.swap.Some? && SortedByCpuTime(s.processes)
  }

  lemma InitialIsConsistent()
    ensures Consistent(Snapshot(InitialGlobalInfo, []))
  {
  }

  /** An update, whatever the collectors do, keeps the published pair consistent. */
  lemma UpdateKeepsConsistent(
    s: Snapshot, gc: GlobalCache, gInp: GlobalInputs,
    pc: ProcessCache, users: map<int, string>, pInp: ProcessInputs, limit: int)
    requires Consistent(s)
    ensures Consistent(Published(s, GlobalStep(ModelPy, gc, gInp).0, ProcessesStep(pc, users, pInp, limit).0))
  {
    if GlobalStep(ModelPy, gc, gInp).0.Some? && ProcessesStep(pc, users, pInp, limit).0.Some? {
      GlobalStepCompleted(ModelPy, gc, gInp);
      ProcessesStepSorted(pc, users, pInp, limit);
    }
  }

  /** After an update that published, there are no more rows than the limit it used. */
  lemma PublishedRowsWithinLimit(
    s: Snapshot, g: Option<GlobalMetrics>,
    pc: ProcessCache, users: map<int, string>, pInp: ProcessInputs, limit: int)
    requires limit >= 0
    requires g.Some? && ProcessesStep(pc, users, pInp, limit).0.Some?
    ensures |Published(s, g, ProcessesStep(pc, users, pInp, limit).0).processes| <= limit
  {
    ProcessesStepSorted(pc, users, pInp, limit);
  }

  /** Everything one `update()` reads and writes: the published pair, model.py's two
      cache groups (which share the memory total) and the user cache. */
  datatype Round = Round(published: Snapshot, global: GlobalCache, processes: ProcessCache, users: map<int, string>)

  /** One `update()` under `limit`: the global step runs first; only when it returns does
      the processes step run, with the memory total the global step left; the pair is
      published only when both returned. */
  function UpdateStep(r: Round, limit: int, gInp: GlobalInputs, pInp: ProcessInputs): Round {
    var (g, gc) := GlobalStep(ModelPy, r.global, gInp);
    if g.None? then Round(r.published, gc, r.processes.(memTotalKb := gc.memTotalKb), r.users)
    else
      var (p, pc, names) := ProcessesStep(r.processes.(memTotalKb := gc.memTotalKb), r.users, pInp, limit);
      Round(Published(r.published, g, p), gc.(memTotalKb := pc.memTotalKb), pc, names)
  }

  /** The state after a series of `update()` rounds, in order. */
  function UpdateAll(r: Round, limit: int, rounds: seq<(GlobalInputs, ProcessInputs)>): Round
    decreases |rounds|
  {
    if |rounds| == 0 then r
    else
      var last := rounds[|rounds| - 1];
      UpdateStep(UpdateAll(r, limit, rounds[..|rounds| - 1]), limit, last.0, last.1)
  }

  lemma UpdateAllPrefix(r: Round, limit: int, rounds: seq<(GlobalInputs, ProcessInputs)>, i: nat)
    requires i < |rounds|
    ensures UpdateAll(r, limit, rounds[..i + 1]) == UpdateStep(UpdateAll(r, limit, rounds[..i]), limit, rounds[i].0, rounds[i].1)
  {
    assert rounds[..i + 1][..i] == rounds[..i];
  }

  /** Whatever the rounds read, the published pair stays consistent. */
  lemma {:induction false} UpdateAllKeepsConsistent(r: Round, limit: int, rounds: seq<(GlobalInputs, ProcessInputs)>)
    requires Consistent(r.published)
    ensures Consistent(UpdateAll(r, limit, rounds).published)
    decreases |rounds|
  {
    if |rounds| > 0 {
      var before := UpdateAll(r, limit, rounds[..|rounds| - 1]);
      var last := rounds[|rounds| - 1];
      UpdateAllKeepsConsistent(r, limit, rounds[..|rounds| - 1]);
      var gc := GlobalStep(ModelPy, before.global, last.0).1;
      UpdateKeepsConsistent(before.published, before.global, last.0,
                            before.processes.(memTotalKb := gc.memTotalKb), before.users, last.1, limit);
    }
  }

  /** `SystemData`: the published pair and the limit handed to `get_processes_info`;
      `source` is model.py's module state. The lock only makes each update and each
      snapshot atomic, which sequential methods already are. */
  class SystemData {
    var globalInfo: GlobalMetrics
    var processes: seq<ProcessRecord>
    var limit: int
    const source: Collector

    function Current(): Snapshot
      reads this
    {
      Snapshot(globalInfo, processes)
    }

    /** The pair, the collector's caches and the user cache. */
    function State(): Round
      reads this, source, source.users
    {
      Round(Current(), source.Global(), source.Processes(), source.users.names)
    }

    predicate Valid()
      reads this
    {
      source.variant == ModelPy && Consistent(Current())
    }

    constructor (source: Collector, limit: int)
      requires source.variant == ModelPy
      ensures this.source == source && this.limit == limit
      ensures Current() == Snapshot(InitialGlobalInfo, []) && Valid()
    {
      globalInfo := InitialGlobalInfo;
      processes := [];
      this.limit := limit;
      this.source := source;
    }

    /** `update()`: collects global figures, then (only if that returned) the top
        processes under the current limit, and publishes both only if both returned. The
        collectors' own state changes persist either way. */
    method Update(gInp: GlobalInputs, pInp: ProcessInputs)
      requires Valid()
      modifies this, source, source.users
      ensures Valid() && limit == old(limit)
      ensures State() == UpdateStep(old(State()), old(limit), gInp, pInp)
      ensures var (g, gc) := GlobalStep(ModelPy, old(source.Global()), gInp);
        if g.None? then
          && Current() == old(Current())
          && source.Global() == gc
          && source.Processes() == old(source.Processes()).(memTotalKb := gc.memTotalKb)
          && source.users.names == old(source.users.names)
        else
          var (p, pc, names) := ProcessesStep(old(source.Processes()).(memTotalKb := gc.memTotalKb),
                                              old(source.users.names), pInp, old(limit));
          && Current() == Published(old(Current()), g, p)
          && source.Processes() == pc
          && source.Global() == gc.(memTotalKb := pc.memTotalKb)
          && source.users.names == names
    {
      ghost var before := Current();
      ghost var gc0 := source.Global();
      ghost var pc0 := source.Processes();
      ghost var names0 := source.users.names;
      var infos := source.GetGlobalInfo(gInp);
      if infos.None? {
        return;
      }
      ghost var pc1 := source.Processes();
      assert pc1 == pc0.(memTotalKb := GlobalStep(ModelPy, gc0, gInp).1.memTotalKb);
      var procs := source.GetProcessesInfo(pInp, limit);
      UpdateKeepsConsistent(before, gc0, gInp, pc1, names0, pInp, limit);
      if procs.None? {
        return;
      }
      globalInfo := infos.value;
      processes := procs.value;
    }

    /** `get_snapshot()`: a copy of the published pair; nothing changes. */
    method GetSnapshot() returns (info: GlobalMetrics, procs: seq<ProcessRecord>)
      ensures Snapshot(info, procs) == Current()
    {
      info := globalInfo;
      procs := processes;
    }
  }

  /** The collector thread: not started, or running with the interval it was started with. */
  datatype ThreadState = NotStarted | Running(interval: int)

  /** The thread part of `start_background_thread(interval, ...)`. */
  function Start(t: ThreadState, interval: int): ThreadState {
    if t.Running? then t else Running(interval)
  }

  /** The thread after a series of `start_background_thread` calls, in order. */
  function StartAll(t: ThreadState, intervals: seq<int>): ThreadState
    decreases |intervals|
  {
    if |intervals| == 0 then t else StartAll(Start(t, intervals[0]), intervals[1..])
  }

  lemma {:induction false} RunningStaysPut(interval: int, intervals: seq<int>)
    ensures StartAll(Running(interval), intervals) == Running(interval)
    decreases |intervals|
  {
    if |intervals| > 0 {
      RunningStaysPut(interval, intervals[1..]);
    }
  }

  /** However often it is called, one thread runs, at the first call's interval. */
  lemma OnlyFirstStartCounts(intervals: seq<int>)
    requires |intervals| > 0
    ensures StartAll(NotStarted, intervals) == Running(intervals[0])
  {
    RunningStaysPut(intervals[0], intervals[1..]);
  }

  /** controller.py's module state: the `system_data` instance and the `_thread_started`
      flag, with the interval the thread was started at. */
  class ControllerState {
    const systemData: SystemData
    var thread: ThreadState

    /** Import time: `SystemData()` with the default limit, no thread. */
    constructor (source: Collector)
      requires source.variant == ModelPy
      ensures fresh(systemData) && systemData.source == source && systemData.limit == DefaultLimit
      ensures systemData.Current() == Snapshot(InitialGlobalInfo, []) && systemData.Valid()
      ensures thread == NotStarted
    {
      systemData := new SystemData(source, DefaultLimit);
      thread := NotStarted;
    }

    /** `start_background_thread(interval, limit)`: always sets the limit; starts the
        thread only the first time. */
    method StartBackgroundThread(interval: int, limit: int)
      modifies this, systemData`limit
      ensures systemData.limit == limit && thread == Start(old(thread), interval)
      ensures thread.Running?
    {
      systemData.limit := limit;
      if thread == NotStarted {
        thread := Running(interval);
      }
    }

    /** `background_data_collector`: one `update()` per round; the rounds are the readings
        the collector finds each time it wakes. */
    method BackgroundDataCollector(rounds: seq<(GlobalInputs, ProcessInputs)>)
      requires systemData.Valid()
      modifies systemData, systemData.source, systemData.source.users
      ensures systemData.Valid() && systemData.limit == old(systemData.limit)
      ensures systemData.State() == UpdateAll(old(systemData.State()), old(systemData.limit), rounds)
    {
      ghost var r0 := systemData.State();
      for i := 0 to |rounds|
        invariant systemData.Valid() && systemData.limit == old(systemData.limit)
        invariant systemData.State() == UpdateAll(r0, systemData.limit, rounds[..i])
      {
        UpdateAllPrefix(r0, systemData.limit, rounds, i);
        systemData.Update(rounds[i].0, rounds[i].1);
      }
      assert rounds[..|rounds|] == rounds;
    }
  }
}
