/** A collector module (model.py or model_system.py) with its module-level state: the
    `cache` dict and the `_user_cache` memo table. Each public function of the module is a
    method that updates that state as the corresponding step function says. */
module Collector {
  import opened Wrappers
  import opened Text
  import opened ProcFiles
  import opened Identity
  import opened StatusValues
  import opened SystemMetrics
  import opened ProcessTable
  import opened ProcessDetails

  /** `prev_times` or `prev_proc_io_stats` without the keys outside `active`: the eviction
      loop over the stale pids. */
  method Evict<V>(m: map<string, V>, active: set<string>) returns (r: map<string, V>)
    ensures r == Restrict(m, active)
  {
    r := m;
    var stale := m.Keys - active;
    while stale != {}
      invariant stale <= m.Keys - active
      invariant r.Keys == (m.Keys * active) + stale
      invariant forall k :: k in r ==> r[k] == m[k]
      decreases stale
    {
      var pid :| pid in stale;
      r := r - {pid};
      stale := stale - {pid};
    }
    assert r.Keys == Restrict(m, active).Keys;
  }

  class Collector {
    const variant: Variant
    const users: UserCache
    var cpu: CpuPrev
    var memTotalKb: Option<int>
    var swapTotalKb: Option<int>
    var disk: Option<DiskTotals>
    var diskTime: real
    var prevTimes: map<string, int>
    var prevIo: map<string, IoCounters>
    var prevTime: real

    /** The entries `get_global_info` reads and writes. */
    function Global(): GlobalCache
      reads this
    {
      GlobalCache(cpu, memTotalKb, swapTotalKb, disk, diskTime)
    }

    /** The entries `get_processes_info` reads and writes; the memory total is shared. */
    function Processes(): ProcessCache
      reads this
    {
      ProcessCache(prevTimes, prevIo, prevTime, memTotalKb)
    }

    /** The state at import time: empty tables, no totals, both clocks at `now`. */
    constructor (v: Variant, now: real)
      ensures variant == v && fresh(users) && users.names == map[]
      ensures Global() == GlobalCache(CpuPrev(0, 0), None, None, None, now)
      ensures Processes() == ProcessCache(map[], map[], now, None)
    {
      variant := v;
      users := new UserCache();
      cpu := CpuPrev(0, 0);
      memTotalKb := None;
      swapTotalKb := None;
      disk := None;
      diskTime := now;
      prevTimes := map[];
      prevIo := map[];
      prevTime := now;
    }

    /** `get_global_info()`. */
    method GetGlobalInfo(inp: GlobalInputs) returns (r: Option<GlobalMetrics>)
      modifies this
      ensures (r, Global()) == GlobalStep(variant, old(Global()), inp)
      ensures prevTimes == old(prevTimes) && prevIo == old(prevIo) && prevTime == old(prevTime)
    {
      var cpuReading := SystemCpu(inp.stat, cpu);
      if cpuReading.CpuRaised? {
        return None;
      }
      cpu := cpuReading.next;
      var mem := ReadMemory(variant, inp.meminfo, memTotalKb, swapTotalKb);
      if mem.MemRaised? {
        return None;
      }
      memTotalKb := mem.memTotalCache;
      swapTotalKb := mem.swapTotalCache;
      var counts := CountProcessesAndThreads(inp.procEntries);
      if counts.None? {
        return None;
      }
      var read := ReadDisk(variant, inp.diskstats);
      if read.None? {
        return None;
      }
      var totals := read.value;
      var rates := DiskRates(totals, disk, diskTime, inp.now);
      disk := Some(totals);
      diskTime := inp.now;
      var swap := if variant == ModelPy then Some(Swap(mem.swapTotalKb, mem.swapUsedKb, mem.swapUsedPercent)) else None;
      r := Some(GlobalMetrics(cpuReading.usedPercent, cpuReading.idlePercent, mem.usedKb, mem.usedPercent,
                              mem.freePercent, swap, counts.value.processes, counts.value.threads, rates.0, rates.1));
    }

    /** Drops a pid from both tables after a failure. */
    method Purge(pid: string)
      modifies this
      ensures prevTimes == old(prevTimes) - {pid} && prevIo == old(prevIo) - {pid}
      ensures Global() == old(Global()) && prevTime == old(prevTime)
    {
      prevTimes := prevTimes - {pid};
      prevIo := prevIo - {pid};
    }

    /** One iteration of the scan loop of `get_processes_info`. */
    method ScanOne(ctx: ScanContext, e: ProcEntry, records: seq<ProcessRecord>, active: set<string>, ghost failed: set<string>)
      returns (records': seq<ProcessRecord>, active': set<string>, ghost failed': set<string>)
      requires ctx.elapsed > 0.0 && ctx.memTotal == memTotalKb
      modifies this, users
      ensures ScanState(prevTimes, prevIo, users.names, records', active', failed') ==
        ScanEntry(ctx, ScanState(old(prevTimes), old(prevIo), old(users.names), records, active, failed), e)
      ensures Global() == old(Global()) && prevTime == old(prevTime)
    {
      records', active', failed' := records, active, failed;
      if !IsPidDir(e) {
        return;
      }
      var pid := e.name;
      active' := active + {pid};
      var sample := ParseStat(e.stat);
      var status := if sample.Some? then ParseStatus(e.status) else None;
      if sample.None? || status.None? {
        Purge(pid);
        failed' := failed + {pid};
        return;
      }
      var who := Resolved("N/A");
      if status.value.uid != -1 {
        who := users.Lookup(status.value.uid, ctx.passwd);
      }
      records', failed' := RecordResolved(ctx, e, sample.value, status.value, who, records, active', failed);
    }

    /** The rest of one iteration, once the owner is known. */
    method RecordResolved(ctx: ScanContext, e: ProcEntry, sample: StatSample, status: StatusSample, who: Lookup,
                          records: seq<ProcessRecord>, active: set<string>, ghost failed: set<string>)
      returns (records': seq<ProcessRecord>, ghost failed': set<string>)
      requires ctx.elapsed > 0.0 && ctx.memTotal == memTotalKb && IsPidDir(e)
      modifies this
      ensures ScanState(prevTimes, prevIo, users.names, records', active, failed') ==
        ScanResolved(ctx, ScanState(old(prevTimes), old(prevIo), users.names, records, active, failed), e, sample, status, who)
      ensures Global() == old(Global()) && prevTime == old(prevTime)
    {
      var pid := e.name;
      records', failed' := records, failed;
      if who.Raised? || memTotalKb.None? {
        Purge(pid);
        failed' := failed + {pid};
        return;
      }
      var prevTicks := if pid in prevTimes then prevTimes[pid] else 0;
      prevTimes := prevTimes[pid := sample.ticks];
      var io := ParseIo(e.io);
      if io.IoFailed? {
        Purge(pid);
        failed' := failed + {pid};
        return;
      }
      var prevCounters := if pid in prevIo then Some(prevIo[pid]) else None;
      var rates := if io.IoValues? then IoRates(io.counters, prevCounters, ctx.elapsed) else (0.0, 0.0);
      if io.IoValues? {
        prevIo := prevIo[pid := io.counters];
      }
      records' := records + [ProcessRecord(
        PidOf(e), sample.name, who.name, status.threads,
        CpuPercent(sample.ticks, prevTicks, ctx.elapsed),
        status.rssKb as real / 1024.0,
        MemoryPercent(status.rssKb, memTotalKb.value),
        sample.ticks as real / ClockTicks as real,
        rates.0, rates.1)];
    }

    /** `get_processes_info(limit)`. */
    method GetProcessesInfo(inp: ProcessInputs, limit: int) returns (r: Option<seq<ProcessRecord>>)
      modifies this, users
      ensures (r, Processes(), users.names) == ProcessesStep(old(Processes()), old(users.names), inp, limit)
      ensures cpu == old(cpu) && swapTotalKb == old(swapTotalKb) && disk == old(disk) && diskTime == old(diskTime)
    {
      var fill := FillMemTotal(memTotalKb, inp.meminfo);
      if fill.MemTotalRaised? {
        return None;
      }
      memTotalKb := fill.kb;
      var ctx := ScanContext(Elapsed(prevTime, inp.now), memTotalKb, inp.passwd);
      var records, active, failed := ScanEntries(ctx, inp.entries);
      prevTimes := Evict(prevTimes, active);
      prevIo := Evict(prevIo, active);
      prevTime := inp.now;
      r := Some(Take(SortByCpuTime(records), limit));
    }

    /** The scan loop of `get_processes_info` over the /proc listing. */
    method ScanEntries(ctx: ScanContext, entries: seq<ProcEntry>)
      returns (records: seq<ProcessRecord>, active: set<string>, ghost failed: set<string>)
      requires ctx.elapsed > 0.0 && ctx.memTotal == memTotalKb
      modifies this, users
      ensures ScanState(prevTimes, prevIo, users.names, records, active, failed) ==
        ScanSpec(ctx, InitialScan(old(Processes()), old(users.names)), entries)
      ensures Global() == old(Global()) && prevTime == old(prevTime)
    {
      ghost var st0 := InitialScan(Processes(), users.names);
      failed := {};
      records := [];
      active := {};
      for i := 0 to |entries|
        invariant ScanState(prevTimes, prevIo, users.names, records, active, failed) == ScanSpec(ctx, st0, entries[..i])
        invariant ctx.memTotal == memTotalKb
        invariant Global() == old(Global()) && prevTime == old(prevTime)
      {
        ScanSpecPrefix(ctx, st0, entries, i);
        records, active, failed := ScanOne(ctx, entries[i], records, active, failed);
      }
      assert entries[..|entries|] == entries;
    }

    /** `get_process_details(pid)`; the open descriptors are listed by model_system.py only. */
    method GetProcessDetails(pid: int, inp: DetailsInputs) returns (d: Option<Details>)
      modifies users
      ensures (d, users.names) == DetailsSpec(variant, old(users.names), pid, inp)
    {
      if !inp.procExists || !inp.status.Lines? {
        return None;
      }
      var table := ReadStatusTable(inp.status.lines);
      var user := ResolveUser(table, users, inp.passwd);
      if user.UserRaised? {
        return None;
      }
      d := ReadDetailsOfUser(variant, pid, table, user.name, inp);
    }

    /** `get_process_open_files(pid)` (model_system.py); it changes no state. */
    method GetProcessOpenFiles(dir: FdDir) returns (rows: seq<OpenFile>)
      requires variant == ModelSystemPy
      ensures rows == OpenFilesSpec(dir)
    {
      rows := ListOpenFiles(dir);
    }
  }
}
