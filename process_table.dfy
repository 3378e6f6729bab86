/** `get_processes_info` (identical in model.py and model_system.py): one scan of `/proc`
    turns each pid's stat, status and io files into a process record, keeping the previous
    CPU ticks and io counters per pid in the module-level cache. Failed pids are purged
    from both tables, pids not seen in the scan are evicted, and the records are sorted by
    cumulative CPU time, largest first, and cut to the limit. */
module ProcessTable {
  import opened Wrappers
  import opened Text
  import opened ProcFiles
  import opened Identity
  import opened StatusValues
  import opened SystemMetrics

  datatype IoCounters = IoCounters(readBytes: int, writeBytes: int)

  /** What the first line of `/proc/<pid>/stat` gives: the name (second word, parentheses
      stripped) and utime + stime (words 14 and 15). A name with spaces shifts the words. */
  datatype StatSample = StatSample(name: string, ticks: int)

  function ParseStat(stat: ReadOutcome): Option<StatSample> {
    match stat
    case Lines(lines) =>
      var ws := Words(FirstLine(lines));
      if |ws| < 15 then None
      else
        (match (ParseInt(ws[13]), ParseInt(ws[14]))
         case (Some(u), Some(s)) => Some(StatSample(StripChars(ws[1], {'(', ')'}), u + s))
         case _ => None)
    case _ => None
  }

  /** Uid, VmRSS (kB) and Threads from `/proc/<pid>/status`; later lines win. */
  datatype StatusSample = StatusSample(uid: int, rssKb: nat, threads: int)

  /** Folds the status lines left to right; a "Uid:" or "Threads:" line whose value is
      missing or not an integer, or a "VmRSS:" line without a value, fails the pid. */
  function StatusFrom(lines: seq<string>, acc: StatusSample): Option<StatusSample>
    decreases |lines|
  {
    if |lines| == 0 then Some(acc)
    else
      var line := lines[0];
      var ws := Words(line);
      if StartsWith(line, "Uid:") then
        if |ws| < 2 then None
        else
          match ParseInt(ws[1])
          case None => None
          case Some(u) => StatusFrom(lines[1..], acc.(uid := u))
      else if StartsWith(line, "VmRSS:") then
        if |ws| < 2 then None
        else StatusFrom(lines[1..], acc.(rssKb := if IsDigits(ws[1]) then DigitsValue(ws[1]) else 0))
      else if StartsWith(line, "Threads:") then
        if |ws| < 2 then None
        else
          match ParseInt(ws[1])
          case None => None
          case Some(n) => StatusFrom(lines[1..], acc.(threads := n))
      else StatusFrom(lines[1..], acc)
  }

  function ParseStatus(status: ReadOutcome): Option<StatusSample> {
    match status
    case Lines(lines) => StatusFrom(lines, StatusSample(-1, 0, 0))
    case _ => None
  }

  /** Outcome of reading `/proc/<pid>/io`. */
  datatype IoRead =
    | IoSkipped                   // missing, denied or a non-integer value: caught, no rates
    | IoFailed                    // a counter line without a value, or another error: the pid fails
    | IoValues(counters: IoCounters)

  function IoFrom(lines: seq<string>, acc: IoCounters): IoRead
    decreases |lines|
  {
    if |lines| == 0 then IoValues(acc)
    else
      var line := lines[0];
      var ws := Words(line);
      if StartsWith(line, "read_bytes:") then
        if |ws| < 2 then IoFailed
        else
          match ParseInt(ws[1])
          case None => IoSkipped
          case Some(v) => IoFrom(lines[1..], acc.(readBytes := v))
      else if StartsWith(line, "write_bytes:") then
        if |ws| < 2 then IoFailed
        else
          match ParseInt(ws[1])
          case None => IoSkipped
          case Some(v) => IoFrom(lines[1..], acc.(writeBytes := v))
      else IoFrom(lines[1..], acc)
  }

  function ParseIo(io: ReadOutcome): IoRead {
    match io
    case NotFound => IoSkipped
    case PermissionDenied => IoSkipped
    case OtherError => IoFailed
    case Lines(lines) => IoFrom(lines, IoCounters(0, 0))
  }

  /** One row of the process table. */
  datatype ProcessRecord = ProcessRecord(
    pid: nat,
    name: string,
    username: string,
    threads: int,
    cpuPercent: real,
    memoryMb: real,
    memoryPercent: real,
    cpuTime: real,
    ioReadBps: real,
    ioWriteBps: real)

  /** CPU share over the interval, clamped at 0; `prev` is 0 for a pid seen for the first time. */
  function CpuPercent(ticks: int, prev: int, elapsed: real): (pct: real)
    requires elapsed > 0.0
    ensures pct >= 0.0
  {
    Max0((ticks - prev) as real / ClockTicks as real / elapsed * 100.0)
  }

  /** The clock-tick rate cancels against the percentage: the share is the tick growth
      over the interval in seconds, and 0 when the ticks went down. */
  lemma CpuPercentMeaning(ticks: int, prev: int, elapsed: real)
    requires elapsed > 0.0
    ensures ticks >= prev ==> CpuPercent(ticks, prev, elapsed) == (ticks - prev) as real / elapsed
    ensures ticks < prev ==> CpuPercent(ticks, prev, elapsed) == 0.0
  {
  }

  /** I/O rates against the previous counters; without previous counters they are 0. */
  function IoRates(c: IoCounters, prev: Option<IoCounters>, elapsed: real): (rates: (real, real))
    requires elapsed > 0.0
    ensures rates.0 >= 0.0 && rates.1 >= 0.0
    ensures prev.None? ==> rates == (0.0, 0.0)
  {
    match prev
    case None => (0.0, 0.0)
    case Some(p) => (Max0((c.readBytes - p.readBytes) as real / elapsed), Max0((c.writeBytes - p.writeBytes) as real / elapsed))
  }

  /** Share of the memory total; a cached total of 0 is used as 1. */
  function MemoryPercent(rssKb: nat, memTotal: int): (pct: real)
    ensures pct >= 0.0
  {
    var total := if memTotal == 0 then 1 else memTotal;
    if total > 0 then rssKb as real / total as real * 100.0 else 0.0
  }

  // ---------------------------------------------------------------------------------
  // One scan
  // ---------------------------------------------------------------------------------

  /** What stays fixed during a scan: the interval, the memory total (`None` when
      /proc/meminfo had no MemTotal line) and /etc/passwd. */
  datatype ScanContext = ScanContext(elapsed: real, memTotal: Option<int>, passwd: PasswdFile)

  /** The state a scan threads through the pids: the two cache tables, the uid cache, the
      records so far, the pids seen, and (for the proofs) the pids purged after a failure. */
  datatype ScanState = ScanState(
    prevTimes: map<string, int>,
    prevIo: map<string, IoCounters>,
    users: map<int, string>,
    records: seq<ProcessRecord>,
    active: set<string>,
    failed: set<string>)

  /** The except branches: drop the pid from both tables. */
  function Purge(st: ScanState, pid: string): ScanState {
    st.(prevTimes := st.prevTimes - {pid}, prevIo := st.prevIo - {pid}, failed := st.failed + {pid})
  }

  /** One iteration of the scan loop. */
  function ScanEntry(ctx: ScanContext, st: ScanState, e: ProcEntry): ScanState
    requires ctx.elapsed > 0.0
  {
    if !IsPidDir(e) then st
    else
      var pid := e.name;
      var st1 := st.(active := st.active + {pid});
      match ParseStat(e.stat)
      case None => Purge(st1, pid)
      case Some(sample) =>
        match ParseStatus(e.status)
        case None => Purge(st1, pid)
        case Some(status) =>
          var (who, users') :=
            if status.uid != -1 then LookupSpec(st1.users, status.uid, ctx.passwd)
            else (Resolved("N/A"), st1.users);
          ScanResolved(ctx, st1.(users := users'), e, sample, status, who)
  }

  /** The rest of one iteration, once the owner lookup has been made: a failed lookup or
      an unknown memory total purges the pid; otherwise the CPU sample is cached, the I/O
      counters are read and the record is appended. */
  function ScanResolved(ctx: ScanContext, st: ScanState, e: ProcEntry, sample: StatSample, status: StatusSample, who: Lookup)
    : ScanState
    requires ctx.elapsed > 0.0 && IsPidDir(e)
  {
    var pid := e.name;
    if who.Raised? || ctx.memTotal.None? then Purge(st, pid)
    else
      var prevTicks := if pid in st.prevTimes then st.prevTimes[pid] else 0;
      var st3 := st.(prevTimes := st.prevTimes[pid := sample.ticks]);
      var io := ParseIo(e.io);
      if io.IoFailed? then Purge(st3, pid)
      else
        var prevIo := if pid in st3.prevIo then Some(st3.prevIo[pid]) else None;
        var rates := if io.IoValues? then IoRates(io.counters, prevIo, ctx.elapsed) else (0.0, 0.0);
        var record := ProcessRecord(
          PidOf(e), sample.name, who.name, status.threads,
          CpuPercent(sample.ticks, prevTicks, ctx.elapsed),
          status.rssKb as real / 1024.0,
          MemoryPercent(status.rssKb, ctx.memTotal.value),
          sample.ticks as real / ClockTicks as real,
          rates.0, rates.1);
        var io' := if io.IoValues? then st3.prevIo[pid := io.counters] else st3.prevIo;
        st3.(prevIo := io', records := st3.records + [record])
  }

  /** The scan loop over a `/proc` listing. */
  function ScanSpec(ctx: ScanContext, st: ScanState, entries: seq<ProcEntry>): ScanState
    requires ctx.elapsed > 0.0
    decreases |entries|
  {
    if |entries| == 0 then st
    else ScanEntry(ctx, ScanSpec(ctx, st, entries[..|entries| - 1]), entries[|entries| - 1])
  }

  /** The scan of a prefix one entry longer. */
  lemma ScanSpecPrefix(ctx: ScanContext, st: ScanState, entries: seq<ProcEntry>, i: nat)
    requires ctx.elapsed > 0.0 && i < |entries|
    ensures ScanSpec(ctx, st, entries[..i + 1]) == ScanEntry(ctx, ScanSpec(ctx, st, entries[..i]), entries[i])
  {
    assert entries[..i + 1][..i] == entries[..i] && entries[..i + 1][i] == entries[i];
  }

  /** The names of the pid directories of a listing. */
  function PidNames(entries: seq<ProcEntry>): set<string>
    decreases |entries|
  {
    if |entries| == 0 then {}
    else
      var e := entries[|entries| - 1];
      PidNames(entries[..|entries| - 1]) + (if IsPidDir(e) then {e.name} else {})
  }

  /** The pid values of the pid directories of a listing. */
  function PidValues(entries: seq<ProcEntry>): set<nat>
    decreases |entries|
  {
    if |entries| == 0 then {}
    else
      var e := entries[|entries| - 1];
      PidValues(entries[..|entries| - 1]) + (if IsPidDir(e) then {PidOf(e)} else {})
  }

  /** No two pid directories denote the same pid. */
  predicate DistinctPids(entries: seq<ProcEntry>) {
    forall i, j :: 0 <= i < j < |entries| && IsPidDir(entries[i]) && IsPidDir(entries[j]) ==>
      PidOf(entries[i]) != PidOf(entries[j])
  }


  predicate RecordNonNegative(r: ProcessRecord) {
    r.cpuPercent >= 0.0 && r.memoryMb >= 0.0 && r.memoryPercent >= 0.0 && r.ioReadBps >= 0.0 && r.ioWriteBps >= 0.0
  }

  /** `m'` holds every key other than `k` exactly as `m` does: same presence, same value. */
  ghost predicate KeepsOthers<V>(m: map<string, V>, m': map<string, V>, k: string) {
    forall x :: x != k ==> (x in m' <==> x in m) && (x in m ==> m'[x] == m[x])
  }

  /** `m'` holds every key outside `touched` exactly as `m` does. */
  ghost predicate KeepsOutside<V>(m: map<string, V>, m': map<string, V>, touched: set<string>) {
    forall x :: x !in touched ==> (x in m' <==> x in m) && (x in m ==> m'[x] == m[x])
  }

  /** The row a readable pid directory yields, against the cache `prevTimes`/`prevIo` as it
      stood before the directory was scanned: pid, name, threads and CPU time as read, and
      "N/A" as the owner of a process without a Uid line;
      the CPU share is the tick growth since the cached ticks (0 for a pid not cached);
      the memory figures use the scan's total; the I/O rates are measured against the
      cached counters, and are 0 when the counters were not read or were not cached. */
  ghost predicate RecordOfEntry(ctx: ScanContext, prevTimes: map<string, int>, prevIo: map<string, IoCounters>,
                                e: ProcEntry, r: ProcessRecord) {
    && ctx.elapsed > 0.0 && IsPidDir(e)
    && ParseStat(e.stat).Some? && ParseStatus(e.status).Some? && ctx.memTotal.Some? && !ParseIo(e.io).IoFailed?
    && var sample := ParseStat(e.stat).value;
       var status := ParseStatus(e.status).value;
       && r.pid == PidOf(e) && r.name == sample.name && r.threads == status.threads
       && (status.uid == -1 ==> r.username == "N/A")
       && r.cpuTime == sample.ticks as real / ClockTicks as real
       && r.cpuPercent == CpuPercent(sample.ticks, if e.name in prevTimes then prevTimes[e.name] else 0, ctx.elapsed)
       && r.memoryMb == status.rssKb as real / 1024.0
       && r.memoryPercent == MemoryPercent(status.rssKb, ctx.memTotal.value)
       && (ParseIo(e.io).IoValues? ==>
             (r.ioReadBps, r.ioWriteBps) ==
             IoRates(ParseIo(e.io).counters, if e.name in prevIo then Some(prevIo[e.name]) else None, ctx.elapsed))
       && (ParseIo(e.io).IoSkipped? ==> r.ioReadBps == 0.0 && r.ioWriteBps == 0.0)
  }

  /** The uid cache `users'` keeps every entry of `users`. */
  ghost predicate UsersGrow(users: map<int, string>, users': map<int, string>) {
    forall u :: u in users ==> u in users' && users'[u] == users[u]
  }

  /** The owner of a row whose process has a Uid line is the name the uid cache holds
      for that uid. */
  ghost predicate OwnerCached(users: map<int, string>, e: ProcEntry, r: ProcessRecord) {
    && ParseStatus(e.status).Some?
    && var uid := ParseStatus(e.status).value.uid;
       uid != -1 ==> uid in users && users[uid] == r.username
  }

  /** What the tables `t`/`io` hold for a pid directory that produced a row, for the next
      call to measure against: its ticks as read; its io counters when they were read, and
      otherwise exactly what `io0` held for it. */
  ghost predicate CachedForNext(io0: map<string, IoCounters>, t: map<string, int>, io: map<string, IoCounters>,
                                e: ProcEntry) {
    && ParseStat(e.stat).Some? && !ParseIo(e.io).IoFailed?
    && e.name in t && t[e.name] == ParseStat(e.stat).value.ticks
    && (ParseIo(e.io).IoValues? ==> e.name in io && io[e.name] == ParseIo(e.io).counters)
    && (ParseIo(e.io).IoSkipped? ==>
          && (e.name in io <==> e.name in io0)
          && (e.name in io0 ==> io[e.name] == io0[e.name]))
  }

  /** Every pid directory of the listing that did not fail has its values cached in
      `t`/`io`, against the counters `io0` held before the scan. */
  ghost predicate ListingCached(io0: map<string, IoCounters>, t: map<string, int>, io: map<string, IoCounters>,
                                entries: seq<ProcEntry>, failed: set<string>) {
    forall i :: 0 <= i < |entries| && IsPidDir(entries[i]) && entries[i].name !in failed ==>
      CachedForNext(io0, t, io, entries[i])
  }

  /** What one iteration does to a state, in terms a proof over the whole scan can use:
      a pid directory is marked seen and either purged, or gets exactly one new record of
      its own, computed from the cache before the iteration, whose owner the uid cache now
      holds, with its ticks and the io counters just read cached; every other pid's cache entries stay exactly as they
      were, and the uid cache only gains entries. */
  ghost predicate EntryEffect(ctx: ScanContext, st: ScanState, e: ProcEntry, st': ScanState) {
    && (!IsPidDir(e) ==> st' == st)
    && (IsPidDir(e) ==>
          && st'.active == st.active + {e.name}
          && UsersGrow(st.users, st'.users)
          && KeepsOthers(st.prevTimes, st'.prevTimes, e.name)
          && KeepsOthers(st.prevIo, st'.prevIo, e.name)
          && (|| (st'.failed == st.failed + {e.name} && st'.records == st.records
                  && e.name !in st'.prevTimes && e.name !in st'.prevIo)
              || (st'.failed == st.failed && |st'.records| == |st.records| + 1
                  && st'.records[..|st.records|] == st.records
                  && RecordOfEntry(ctx, st.prevTimes, st.prevIo, e, st'.records[|st.records|])
                  && OwnerCached(st'.users, e, st'.records[|st.records|])
                  && CachedForNext(st.prevIo, st'.prevTimes, st'.prevIo, e))))
  }

  /** A purge after the pid was marked seen has the effect of a failed entry. */
  lemma PurgeEffect(ctx: ScanContext, st: ScanState, e: ProcEntry, st2: ScanState)
    requires IsPidDir(e)
    requires st2.active == st.active + {e.name} && st2.failed == st.failed && st2.records == st.records
    requires UsersGrow(st.users, st2.users)
    requires KeepsOthers(st.prevTimes, st2.prevTimes, e.name)
    requires KeepsOthers(st.prevIo, st2.prevIo, e.name)
    ensures EntryEffect(ctx, st, e, Purge(st2, e.name))
  {
  }

  lemma ScanEntryEffect(ctx: ScanContext, st: ScanState, e: ProcEntry)
    requires ctx.elapsed > 0.0
    ensures EntryEffect(ctx, st, e, ScanEntry(ctx, st, e))
  {
    if IsPidDir(e) {
      var pid := e.name;
      var st1 := st.(active := st.active + {pid});
      match ParseStat(e.stat) {
        case None => PurgeEffect(ctx, st, e, st1);
        case Some(sample) =>
          match ParseStatus(e.status) {
            case None => PurgeEffect(ctx, st, e, st1);
            case Some(status) =>
              var (who, users') :=
                if status.uid != -1 then LookupSpec(st1.users, status.uid, ctx.passwd)
                else (Resolved("N/A"), st1.users);
              if status.uid != -1 {
                LookupOnlyAdds(st1.users, status.uid, ctx.passwd);
                if who.Resolved? {
                  LookupIsMemoised(st1.users, status.uid, ctx.passwd, ctx.passwd);
                }
              }
              ScanResolvedEffect(ctx, st, st1.(users := users'), e, sample, status, who);
          }
      }
    }
  }

  lemma ScanResolvedEffect(ctx: ScanContext, st: ScanState, st2: ScanState, e: ProcEntry,
                           sample: StatSample, status: StatusSample, who: Lookup)
    requires ctx.elapsed > 0.0 && IsPidDir(e)
    requires ParseStat(e.stat) == Some(sample) && ParseStatus(e.status) == Some(status)
    requires st2.active == st.active + {e.name} && st2.failed == st.failed && st2.records == st.records
    requires st2.prevTimes == st.prevTimes && st2.prevIo == st.prevIo
    requires UsersGrow(st.users, st2.users)
    requires status.uid == -1 ==> who == Resolved("N/A")
    requires status.uid != -1 && who.Resolved? ==> status.uid in st2.users && st2.users[status.uid] == who.name
    ensures EntryEffect(ctx, st, e, ScanResolved(ctx, st2, e, sample, status, who))
  {
    var pid := e.name;
    if who.Raised? || ctx.memTotal.None? {
      PurgeEffect(ctx, st, e, st2);
    } else {
      var st3 := st2.(prevTimes := st2.prevTimes[pid := sample.ticks]);
      if ParseIo(e.io).IoFailed? {
        PurgeEffect(ctx, st, e, st3);
      } else {
        var st' := ScanResolved(ctx, st2, e, sample, status, who);
        assert st'.failed == st.failed && st'.records[..|st.records|] == st.records;
        assert RecordOfEntry(ctx, st.prevTimes, st.prevIo, e, st'.records[|st.records|]);
        assert OwnerCached(st'.users, e, st'.records[|st.records|]);
        assert CachedForNext(st.prevIo, st'.prevTimes, st'.prevIo, e);
      }
    }
  }

  /** What a scan from an empty record list guarantees, given distinct pids. */
  ghost predicate ScanInvariant(ctx: ScanContext, entries: seq<ProcEntry>, st0: ScanState, st: ScanState) {
    && st.active == PidNames(entries)
    && st.failed <= st.active
    && (forall n :: n in st.failed ==> n !in st.prevTimes && n !in st.prevIo)
    && KeepsOutside(st0.prevTimes, st.prevTimes, st.active)
    && KeepsOutside(st0.prevIo, st.prevIo, st.active)
    && RecordsValid(entries, st.records, st.failed)
    && RowsOfListing(ctx, st0.prevTimes, st0.prevIo, st.users, entries, st.records)
  }

  /** Every record is the row of one listed pid directory, against the given cache, and
      its owner is the name `users` holds for the process's uid. */
  ghost predicate RowsOfListing(ctx: ScanContext, prevTimes: map<string, int>, prevIo: map<string, IoCounters>,
                                users: map<int, string>, entries: seq<ProcEntry>, records: seq<ProcessRecord>) {
    forall r :: r in records ==>
      exists i :: 0 <= i < |entries| && IsPidDir(entries[i]) && RecordOfEntry(ctx, prevTimes, prevIo, entries[i], r)
                  && OwnerCached(users, entries[i], r)
  }

  /** A record depends on the cache only through its own pid's entries. */
  lemma RecordOfEntrySameCache(ctx: ScanContext, t: map<string, int>, io: map<string, IoCounters>,
                               t0: map<string, int>, io0: map<string, IoCounters>, e: ProcEntry, r: ProcessRecord)
    requires RecordOfEntry(ctx, t, io, e, r)
    requires (e.name in t <==> e.name in t0) && (e.name in t0 ==> t[e.name] == t0[e.name])
    requires (e.name in io <==> e.name in io0) && (e.name in io0 ==> io[e.name] == io0[e.name])
    ensures RecordOfEntry(ctx, t0, io0, e, r)
  {
  }

  /** The record belongs to a listed pid, is non-negative and is not a pid that failed. */
  ghost predicate RecordValid(entries: seq<ProcEntry>, r: ProcessRecord, failed: set<string>) {
    && r.pid in PidValues(entries)
    && RecordNonNegative(r)
    && (forall n :: n in failed ==> IsDigits(n) && r.pid != DigitsValue(n))
  }

  ghost predicate RecordsValid(entries: seq<ProcEntry>, records: seq<ProcessRecord>, failed: set<string>) {
    forall r :: r in records ==> RecordValid(entries, r, failed)
  }

  lemma {:induction false} PidNamesAreDigits(entries: seq<ProcEntry>)
    ensures forall n :: n in PidNames(entries) ==> IsDigits(n) && DigitsValue(n) in PidValues(entries)
    decreases |entries|
  {
    if |entries| > 0 {
      PidNamesAreDigits(entries[..|entries| - 1]);
    }
  }

  /** Distinct pids stay distinct in a prefix. */
  lemma DistinctPidsPrefix(entries: seq<ProcEntry>, k: nat)
    requires k <= |entries| && DistinctPids(entries)
    ensures DistinctPids(entries[..k])
  {
    var init := entries[..k];
    forall i, j | 0 <= i < j < |init| && IsPidDir(init[i]) && IsPidDir(init[j])
      ensures PidOf(init[i]) != PidOf(init[j])
    {
      assert init[i] == entries[i] && init[j] == entries[j];
    }
  }

  /** With distinct pids, the pid directory at `k` brings a name and a pid value that
      no earlier entry has. */
  lemma {:induction false} PidValuesOfPrefix(entries: seq<ProcEntry>, k: nat)
    requires k < |entries| && IsPidDir(entries[k]) && DistinctPids(entries)
    ensures PidOf(entries[k]) !in PidValues(entries[..k])
    ensures entries[k].name !in PidNames(entries[..k])
    decreases k
  {
    if k > 0 {
      var shorter := entries[..k - 1] + [entries[k]];
      assert DistinctPids(shorter) by {
        forall i, j | 0 <= i < j < |shorter| && IsPidDir(shorter[i]) && IsPidDir(shorter[j])
          ensures PidOf(shorter[i]) != PidOf(shorter[j])
        {
          if j == k - 1 {
            assert shorter[i] == entries[i] && shorter[j] == entries[k];
          } else {
            assert shorter[i] == entries[i] && shorter[j] == entries[j];
          }
        }
      }
      PidValuesOfPrefix(shorter, k - 1);
      assert shorter[..k - 1] == entries[..k - 1];
      assert entries[..k][..k - 1] == entries[..k - 1];
      if IsPidDir(entries[k - 1]) {
        assert PidOf(entries[k - 1]) != PidOf(entries[k]);
      }
    }
  }

  /** One step of the scan keeps the invariant. */
  lemma ScanInvariantStep(ctx: ScanContext, entries: seq<ProcEntry>, st0: ScanState, st: ScanState, st': ScanState)
    requires |entries| > 0
    requires ScanInvariant(ctx, entries[..|entries| - 1], st0, st)
    requires EntryEffect(ctx, st, entries[|entries| - 1], st')
    requires IsPidDir(entries[|entries| - 1]) ==>
      var e := entries[|entries| - 1];
      PidOf(e) !in PidValues(entries[..|entries| - 1]) && e.name !in PidNames(entries[..|entries| - 1])
    ensures ScanInvariant(ctx, entries, st0, st')
  {
    var init := entries[..|entries| - 1];
    var e := entries[|entries| - 1];
    PidNamesAreDigits(init);
    if IsPidDir(e) {
      assert st'.active == st.active + {e.name};
      CachesStep(st0.prevTimes, st.prevTimes, st'.prevTimes, st.active, e.name);
      CachesStep(st0.prevIo, st.prevIo, st'.prevIo, st.active, e.name);
      forall n | n in st.failed ensures n !in st'.prevTimes && n !in st'.prevIo {
        assert n in PidNames(init) && n != e.name;
      }
      if st'.failed == st.failed + {e.name} && st'.records == st.records {
        forall r | r in st'.records ensures RecordValid(entries, r, st'.failed) {
          assert RecordValid(init, r, st.failed);
        }
        RowsOfLonger(ctx, st0.prevTimes, st0.prevIo, st.users, entries, st.records);
        RowsUsersGrow(ctx, st0.prevTimes, st0.prevIo, st.users, st'.users, entries, st.records);
      } else {
        var x := st'.records[|st.records|];
        assert st'.records == st.records + [x];
        forall r | r in st'.records ensures RecordValid(entries, r, st'.failed) {
          if r in st.records {
            assert RecordValid(init, r, st.failed);
          } else {
            forall n | n in st'.failed ensures IsDigits(n) && r.pid != DigitsValue(n) {
              assert n in PidNames(init);
            }
          }
        }
        RecordOfEntrySameCache(ctx, st.prevTimes, st.prevIo, st0.prevTimes, st0.prevIo, e, x);
        RowsOfLonger(ctx, st0.prevTimes, st0.prevIo, st.users, entries, st.records);
        RowsUsersGrow(ctx, st0.prevTimes, st0.prevIo, st.users, st'.users, entries, st.records);
        RowsAppend(ctx, st0.prevTimes, st0.prevIo, st'.users, entries, st.records, x, |entries| - 1);
      }
    }
  }

  /** A pid directory's name is one of the listing's pid names. */
  lemma {:induction false} PidNameListed(entries: seq<ProcEntry>, i: nat)
    requires i < |entries| && IsPidDir(entries[i])
    ensures entries[i].name in PidNames(entries)
    decreases |entries|
  {
    if i < |entries| - 1 {
      PidNameListed(entries[..|entries| - 1], i);
    }
  }

  /** One step keeps every earlier recorded pid's cached values, and caches the new one's. */
  lemma ListingCachedStep(ctx: ScanContext, entries: seq<ProcEntry>, st0: ScanState, st: ScanState, st': ScanState)
    requires |entries| > 0
    requires ListingCached(st0.prevIo, st.prevTimes, st.prevIo, entries[..|entries| - 1], st.failed)
    requires st.active == PidNames(entries[..|entries| - 1])
    requires KeepsOutside(st0.prevIo, st.prevIo, st.active)
    requires EntryEffect(ctx, st, entries[|entries| - 1], st')
    requires IsPidDir(entries[|entries| - 1]) ==> entries[|entries| - 1].name !in PidNames(entries[..|entries| - 1])
    ensures ListingCached(st0.prevIo, st'.prevTimes, st'.prevIo, entries, st'.failed)
  {
    var init := entries[..|entries| - 1];
    var e := entries[|entries| - 1];
    forall i | 0 <= i < |entries| && IsPidDir(entries[i]) && entries[i].name !in st'.failed
      ensures CachedForNext(st0.prevIo, st'.prevTimes, st'.prevIo, entries[i])
    {
      if i == |entries| - 1 {
        assert CachedForNext(st.prevIo, st'.prevTimes, st'.prevIo, e);
      } else {
        assert entries[i] == init[i];
        PidNameListed(init, i);
        assert CachedForNext(st0.prevIo, st.prevTimes, st.prevIo, init[i]);
      }
    }
  }

  /** One entry's frame on a cache table extends the frame of the scan so far. */
  lemma CachesStep<V>(m0: map<string, V>, m: map<string, V>, m': map<string, V>, active: set<string>, k: string)
    requires KeepsOutside(m0, m, active)
    requires KeepsOthers(m, m', k)
    ensures KeepsOutside(m0, m', active + {k})
  {
  }

  /** The rows of a listing are rows of any longer listing. */
  lemma RowsOfLonger(ctx: ScanContext, t: map<string, int>, io: map<string, IoCounters>, users: map<int, string>,
                     entries: seq<ProcEntry>, records: seq<ProcessRecord>)
    requires |entries| > 0
    requires RowsOfListing(ctx, t, io, users, entries[..|entries| - 1], records)
    ensures RowsOfListing(ctx, t, io, users, entries, records)
  {
    var init := entries[..|entries| - 1];
    forall r | r in records
      ensures exists i :: 0 <= i < |entries| && IsPidDir(entries[i]) && RecordOfEntry(ctx, t, io, entries[i], r)
                          && OwnerCached(users, entries[i], r)
    {
      var i :| 0 <= i < |init| && IsPidDir(init[i]) && RecordOfEntry(ctx, t, io, init[i], r)
               && OwnerCached(users, init[i], r);
      assert init[i] == entries[i];
    }
  }

  /** Rows whose owners a uid cache holds keep them in any cache that only gained entries. */
  lemma RowsUsersGrow(ctx: ScanContext, t: map<string, int>, io: map<string, IoCounters>,
                      users: map<int, string>, users': map<int, string>,
                      entries: seq<ProcEntry>, records: seq<ProcessRecord>)
    requires RowsOfListing(ctx, t, io, users, entries, records)
    requires UsersGrow(users, users')
    ensures RowsOfListing(ctx, t, io, users', entries, records)
  {
    forall r | r in records
      ensures exists i :: 0 <= i < |entries| && IsPidDir(entries[i]) && RecordOfEntry(ctx, t, io, entries[i], r)
                          && OwnerCached(users', entries[i], r)
    {
      var i :| 0 <= i < |entries| && IsPidDir(entries[i]) && RecordOfEntry(ctx, t, io, entries[i], r)
               && OwnerCached(users, entries[i], r);
      assert OwnerCached(users', entries[i], r);
    }
  }

  /** Appending the row of a listed entry keeps every record a row of the listing. */
  lemma RowsAppend(ctx: ScanContext, t: map<string, int>, io: map<string, IoCounters>, users: map<int, string>,
                   entries: seq<ProcEntry>, records: seq<ProcessRecord>, x: ProcessRecord, k: nat)
    requires RowsOfListing(ctx, t, io, users, entries, records)
    requires k < |entries| && IsPidDir(entries[k]) && RecordOfEntry(ctx, t, io, entries[k], x)
    requires OwnerCached(users, entries[k], x)
    ensures RowsOfListing(ctx, t, io, users, entries, records + [x])
  {
  }

  /** The scan keeps `ScanInvariant`: the pids seen are the listing's pid directories, the
      cache entries of pids not seen are as before the scan, every record is a non-negative
      row of a listed pid computed from the cache before the scan, and a purged pid is in
      neither table and has no record; every pid that did not fail has its ticks, and its
      io counters when read, cached for the next call. */
  lemma {:induction false} ScanSpecInvariant(ctx: ScanContext, st0: ScanState, entries: seq<ProcEntry>)
    requires ctx.elapsed > 0.0
    requires st0.records == [] && st0.active == {} && st0.failed == {}
    requires DistinctPids(entries)
    ensures ScanInvariant(ctx, entries, st0, ScanSpec(ctx, st0, entries))
    ensures var st := ScanSpec(ctx, st0, entries);
      ListingCached(st0.prevIo, st.prevTimes, st.prevIo, entries, st.failed)
    decreases |entries|
  {
    if |entries| > 0 {
      var k := |entries| - 1;
      DistinctPidsPrefix(entries, k);
      ScanSpecInvariant(ctx, st0, entries[..k]);
      var st := ScanSpec(ctx, st0, entries[..k]);
      ScanEntryEffect(ctx, st, entries[k]);
      if IsPidDir(entries[k]) {
        PidValuesOfPrefix(entries, k);
      }
      ScanInvariantStep(ctx, entries, st0, st, ScanSpec(ctx, st0, entries));
      ListingCachedStep(ctx, entries, st0, st, ScanSpec(ctx, st0, entries));
    }
  }

  // ---------------------------------------------------------------------------------
  // Eviction, ordering and the limit
  // ---------------------------------------------------------------------------------

  /** The table with only the keys in `keep`. */
  function Restrict<V>(m: map<string, V>, keep: set<string>): (r: map<string, V>)
    ensures r.Keys == m.Keys * keep
    ensures forall k :: k in r ==> r[k] == m[k]
  {
    map k | k in m && k in keep :: m[k]
  }

  predicate SortedByCpuTime(s: seq<ProcessRecord>) {
    forall i, j :: 0 <= i < j < |s| ==> s[i].cpuTime >= s[j].cpuTime
  }

  /** Inserts `r` ahead of the first record whose CPU time is not larger. */
  function InsertByCpuTime(r: ProcessRecord, s: seq<ProcessRecord>): (t: seq<ProcessRecord>)
    ensures multiset(t) == multiset(s) + multiset{r}
    decreases |s|
  {
    if |s| == 0 then [r]
    else if s[0].cpuTime > r.cpuTime then
      assert s == [s[0]] + s[1..];
      [s[0]] + InsertByCpuTime(r, s[1..])
    else [r] + s
  }

  lemma {:induction false} InsertMembers(r: ProcessRecord, s: seq<ProcessRecord>)
    ensures forall x :: x in InsertByCpuTime(r, s) ==> x == r || x in s
    decreases |s|
  {
    if |s| > 0 && s[0].cpuTime > r.cpuTime {
      InsertMembers(r, s[1..]);
    }
  }

  lemma {:induction false} InsertKeepsSorted(r: ProcessRecord, s: seq<ProcessRecord>)
    requires SortedByCpuTime(s)
    ensures SortedByCpuTime(InsertByCpuTime(r, s))
    decreases |s|
  {
    if |s| > 0 && s[0].cpuTime > r.cpuTime {
      var t := InsertByCpuTime(r, s);
      var rest := InsertByCpuTime(r, s[1..]);
      assert t == [s[0]] + rest;
      InsertKeepsSorted(r, s[1..]);
      InsertMembers(r, s[1..]);
      forall i, j | 0 <= i < j < |t| ensures t[i].cpuTime >= t[j].cpuTime {
        if i == 0 {
          var x := rest[j - 1];
          assert t[j] == x && x in rest;
          if x != r {
            var m :| 0 <= m < |s[1..]| && s[1..][m] == x;
            assert s[m + 1] == x;
          }
        } else {
          assert t[i] == rest[i - 1] && t[j] == rest[j - 1];
        }
      }
    }
  }

  /** `records.sort(key=cpu_time, reverse=True)`: the records in decreasing CPU time.
      Python's sort is stable, which `SortIsStable` states for this definition. */
  function SortByCpuTime(s: seq<ProcessRecord>): (t: seq<ProcessRecord>)
    ensures SortedByCpuTime(t)
    ensures multiset(t) == multiset(s)
    decreases |s|
  {
    if |s| == 0 then []
    else
      assert s == [s[0]] + s[1..];
      var rest := SortByCpuTime(s[1..]);
      InsertKeepsSorted(s[0], rest);
      InsertByCpuTime(s[0], rest)
  }

  /** The records whose CPU time is `time`, in order. */
  function WithCpuTime(s: seq<ProcessRecord>, time: real): seq<ProcessRecord>
    decreases |s|
  {
    if |s| == 0 then []
    else (if s[0].cpuTime == time then [s[0]] else []) + WithCpuTime(s[1..], time)
  }

  lemma WithCpuTimeCons(x: ProcessRecord, rest: seq<ProcessRecord>, time: real)
    ensures WithCpuTime([x] + rest, time) == (if x.cpuTime == time then [x] else []) + WithCpuTime(rest, time)
  {
    assert ([x] + rest)[1..] == rest;
  }

  lemma {:induction false} InsertKeepsTies(r: ProcessRecord, s: seq<ProcessRecord>, time: real)
    ensures WithCpuTime(InsertByCpuTime(r, s), time) ==
      (if r.cpuTime == time then [r] else []) + WithCpuTime(s, time)
    decreases |s|
  {
    if |s| == 0 {
      WithCpuTimeCons(r, [], time);
    } else if s[0].cpuTime > r.cpuTime {
      var rest := InsertByCpuTime(r, s[1..]);
      InsertKeepsTies(r, s[1..], time);
      WithCpuTimeCons(s[0], rest, time);
      WithCpuTimeCons(s[0], s[1..], time);
      assert s == [s[0]] + s[1..];
    } else {
      WithCpuTimeCons(r, s, time);
    }
  }

  /** The sort is stable: for every CPU time, the records with that time appear in the
      sorted list in the order they were scanned. */
  lemma {:induction false} SortIsStable(s: seq<ProcessRecord>, time: real)
    ensures WithCpuTime(SortByCpuTime(s), time) == WithCpuTime(s, time)
    decreases |s|
  {
    if |s| > 0 {
      SortIsStable(s[1..], time);
      InsertKeepsTies(s[0], SortByCpuTime(s[1..]), time);
    }
  }

  /** Python `s[:limit]`; a negative limit counts from the end. */
  function Take<T>(s: seq<T>, limit: int): (t: seq<T>)
    ensures limit >= 0 ==> |t| == if limit < |s| then limit else |s|
    ensures limit < 0 ==> |t| == if |s| + limit > 0 then |s| + limit else 0
    ensures t <= s
  {
    if limit >= 0 then (if limit < |s| then s[..limit] else s)
    else if |s| + limit > 0 then s[..|s| + limit]
    else []
  }

  /** The returned list: the records of the scan, largest CPU time first, at most `limit`
      of them when the limit is not negative. */
  lemma TopRecords(records: seq<ProcessRecord>, limit: int)
    ensures var out := Take(SortByCpuTime(records), limit);
      && SortedByCpuTime(out)
      && multiset(out) <= multiset(records)
      && (limit >= 0 ==> |out| == if limit < |records| then limit else |records|)
      && TopByCpuTime(out, records)
  {
    var sorted := SortByCpuTime(records);
    var out := Take(sorted, limit);
    assert sorted == out + sorted[|out|..];
    assert multiset(sorted) == multiset(out) + multiset(sorted[|out|..]);
    SortedPrefixIsTop(sorted, |out|);
    assert out == sorted[..|out|];
  }

  /** A prefix of a list sorted by decreasing CPU time holds its busiest records. */
  lemma SortedPrefixIsTop(sorted: seq<ProcessRecord>, k: nat)
    requires SortedByCpuTime(sorted) && k <= |sorted|
    ensures TopByCpuTime(sorted[..k], sorted)
  {
    var out, rest := sorted[..k], sorted[k..];
    assert sorted == out + rest;
    forall x, y | x in out && y in multiset(sorted) - multiset(out) ensures y.cpuTime <= x.cpuTime {
      assert y in multiset(rest);
      var i :| 0 <= i < k && out[i] == x;
      var j :| 0 <= j < |rest| && rest[j] == y;
      assert sorted[i] == x && sorted[k + j] == y;
    }
  }

  /** No record left out of `out` has a larger CPU time than one kept in it: `out` holds
      the busiest of `records`. */
  ghost predicate TopByCpuTime(out: seq<ProcessRecord>, records: seq<ProcessRecord>) {
    forall x, y :: x in out && y in multiset(records) - multiset(out) ==> y.cpuTime <= x.cpuTime
  }

  // ---------------------------------------------------------------------------------
  // One call
  // ---------------------------------------------------------------------------------

  /** The cache entries `get_processes_info` reads and writes. */
  datatype ProcessCache = ProcessCache(
    prevTimes: map<string, int>,
    prevIo: map<string, IoCounters>,
    prevTime: real,
    memTotalKb: Option<int>)

  /** What the kernel files hold at the time of one call, and the clock. */
  datatype ProcessInputs = ProcessInputs(
    now: real,
    meminfo: ReadOutcome,
    entries: seq<ProcEntry>,
    passwd: PasswdFile)

  datatype MemTotalRead = MemTotalRaised | MemTotalKnown(kb: Option<int>)

  /** The memory total the scan uses: the cached one, or else the first MemTotal line of
      /proc/meminfo (1 when the file is missing or the value is not an integer). A denied
      read or a MemTotal line without a value escapes. */
  function FillMemTotal(cached: Option<int>, meminfo: ReadOutcome): (r: MemTotalRead)
    ensures cached.Some? ==> r == MemTotalKnown(cached)
    ensures meminfo.NotFound? ==> r.MemTotalKnown? && r.kb.Some?
    ensures r.MemTotalRaised? ==> cached.None? && !meminfo.NotFound?
  {
    if cached.Some? then MemTotalKnown(cached)
    else
      match meminfo
      case NotFound => MemTotalKnown(Some(1))
      case PermissionDenied => MemTotalRaised
      case OtherError => MemTotalRaised
      case Lines(lines) =>
        match FirstStartingWith(lines, "MemTotal:")
        case None => MemTotalKnown(None)
        case Some(line) =>
          var ws := Words(line);
          if |ws| < 2 then MemTotalRaised
          else MemTotalKnown(Some(ParseInt(ws[1]).GetOr(1)))
  }

  /** The interval since the previous call, floored at 1 s when it is at most 1 ms. */
  function Elapsed(prevTime: real, now: real): (e: real)
    ensures e > 0.001
    ensures now - prevTime > 0.001 ==> e == now - prevTime
  {
    if now - prevTime <= 0.001 then 1.0 else now - prevTime
  }

  function InitialScan(c: ProcessCache, users: map<int, string>): ScanState {
    ScanState(c.prevTimes, c.prevIo, users, [], {}, {})
  }

  /** The scan one call performs once the memory total is known. */
  function CallScan(c: ProcessCache, users: map<int, string>, inp: ProcessInputs, memTotal: Option<int>): ScanState {
    ScanSpec(ScanContext(Elapsed(c.prevTime, inp.now), memTotal, inp.passwd), InitialScan(c, users), inp.entries)
  }

  /** One call of `get_processes_info(limit)`: the result (`None` when an exception
      escapes), the cache afterwards and the uid cache afterwards. */
  function ProcessesStep(c: ProcessCache, users: map<int, string>, inp: ProcessInputs, limit: int)
    : (Option<seq<ProcessRecord>>, ProcessCache, map<int, string>)
  {
    match FillMemTotal(c.memTotalKb, inp.meminfo)
    case MemTotalRaised => (None, c, users)
    case MemTotalKnown(memTotal) =>
      var st := CallScan(c, users, inp, memTotal);
      (Some(Take(SortByCpuTime(st.records), limit)),
       ProcessCache(Restrict(st.prevTimes, st.active), Restrict(st.prevIo, st.active), inp.now, memTotal),
       st.users)
  }

  /** The cache after one call over a listing with distinct pids: both tables hold only
      pids of this scan, a pid that failed is in neither, and every other pid keeps what
      the scan cached for it. */
  lemma ProcessesStepCache(c: ProcessCache, users: map<int, string>, inp: ProcessInputs, limit: int)
    requires DistinctPids(inp.entries)
    requires FillMemTotal(c.memTotalKb, inp.meminfo).MemTotalKnown?
    ensures var c' := ProcessesStep(c, users, inp, limit).1;
      var st := CallScan(c, users, inp, FillMemTotal(c.memTotalKb, inp.meminfo).kb);
      && c'.prevTimes.Keys <= PidNames(inp.entries)
      && c'.prevIo.Keys <= PidNames(inp.entries)
      && (forall n :: n in st.failed ==> n !in c'.prevTimes && n !in c'.prevIo)
      && ListingCached(c.prevIo, c'.prevTimes, c'.prevIo, inp.entries, st.failed)
  {
    var memTotal := FillMemTotal(c.memTotalKb, inp.meminfo).kb;
    var st := CallScan(c, users, inp, memTotal);
    ScanSpecInvariant(ScanContext(Elapsed(c.prevTime, inp.now), memTotal, inp.passwd), InitialScan(c, users), inp.entries);
    EvictionKeepsListing(c.prevIo, st.prevTimes, st.prevIo, inp.entries, st.failed);
  }

  /** Eviction down to the listing's pids keeps every cached value of the listing. */
  lemma EvictionKeepsListing(io0: map<string, IoCounters>, t: map<string, int>, io: map<string, IoCounters>,
                             entries: seq<ProcEntry>, failed: set<string>)
    requires ListingCached(io0, t, io, entries, failed)
    ensures ListingCached(io0, Restrict(t, PidNames(entries)), Restrict(io, PidNames(entries)), entries, failed)
  {
    forall i | 0 <= i < |entries| && IsPidDir(entries[i]) && entries[i].name !in failed
      ensures CachedForNext(io0, Restrict(t, PidNames(entries)), Restrict(io, PidNames(entries)), entries[i])
    {
      PidNameListed(entries, i);
    }
  }

  /** For every row one call returns over a listing with distinct pids, the cache the call
      leaves holds that pid's ticks, and its io counters when they were read (otherwise
      what was cached before the call): the next call measures against them. */
  lemma ProcessesStepRowsCached(c: ProcessCache, users: map<int, string>, inp: ProcessInputs, limit: int)
    requires DistinctPids(inp.entries)
    requires FillMemTotal(c.memTotalKb, inp.meminfo).MemTotalKnown?
    ensures ProcessesStep(c, users, inp, limit).0.Some?
    ensures var (out, c', _) := ProcessesStep(c, users, inp, limit);
      forall r :: r in out.value ==>
        exists i :: 0 <= i < |inp.entries| && IsPidDir(inp.entries[i]) && PidOf(inp.entries[i]) == r.pid
          && CachedForNext(c.prevIo, c'.prevTimes, c'.prevIo, inp.entries[i])
  {
    var memTotal := FillMemTotal(c.memTotalKb, inp.meminfo).kb;
    var ctx := ScanContext(Elapsed(c.prevTime, inp.now), memTotal, inp.passwd);
    var st := CallScan(c, users, inp, memTotal);
    var (out, c', _) := ProcessesStep(c, users, inp, limit);
    ProcessesStepCache(c, users, inp, limit);
    ProcessesStepOutput(c, users, inp, limit);
    ProcessesStepRows(c, users, inp, limit);
    forall r | r in out.value
      ensures exists i :: 0 <= i < |inp.entries| && IsPidDir(inp.entries[i]) && PidOf(inp.entries[i]) == r.pid
                          && CachedForNext(c.prevIo, c'.prevTimes, c'.prevIo, inp.entries[i])
    {
      var i :| 0 <= i < |inp.entries| && IsPidDir(inp.entries[i])
               && RecordOfEntry(ctx, c.prevTimes, c.prevIo, inp.entries[i], r) && OwnerCached(st.users, inp.entries[i], r);
      assert RecordValid(inp.entries, r, st.failed);
      assert inp.entries[i].name !in st.failed;
    }
  }

  /** Every returned row is one of the scan's records. */
  lemma TopMembers(records: seq<ProcessRecord>, limit: int)
    ensures forall x :: x in Take(SortByCpuTime(records), limit) ==> x in records
  {
    var sorted := SortByCpuTime(records);
    var out := Take(sorted, limit);
    forall x | x in out ensures x in records {
      var i :| 0 <= i < |out| && out[i] == x;
      assert sorted[i] == x;
      assert x in multiset(sorted);
    }
  }

  /** The list one call returns over a listing with distinct pids: every row belongs to a
      listed pid, is non-negative and is not a pid that failed; the rows are sorted by CPU
      time, drawn from the scan's records and as many as the limit allows. */
  lemma ProcessesStepOutput(c: ProcessCache, users: map<int, string>, inp: ProcessInputs, limit: int)
    requires DistinctPids(inp.entries)
    requires FillMemTotal(c.memTotalKb, inp.meminfo).MemTotalKnown?
    ensures ProcessesStep(c, users, inp, limit).0.Some?
    ensures var out := ProcessesStep(c, users, inp, limit).0.value;
      var st := CallScan(c, users, inp, FillMemTotal(c.memTotalKb, inp.meminfo).kb);
      && RecordsValid(inp.entries, out, st.failed)
      && SortedByCpuTime(out)
      && multiset(out) <= multiset(st.records)
      && (limit >= 0 ==> |out| == if limit < |st.records| then limit else |st.records|)
      && TopByCpuTime(out, st.records)
  {
    var memTotal := FillMemTotal(c.memTotalKb, inp.meminfo).kb;
    var st := CallScan(c, users, inp, memTotal);
    var out := Take(SortByCpuTime(st.records), limit);
    assert ProcessesStep(c, users, inp, limit).0 == Some(out);
    assert RecordsValid(inp.entries, out, st.failed) by {
      ScanSpecInvariant(ScanContext(Elapsed(c.prevTime, inp.now), memTotal, inp.passwd), InitialScan(c, users), inp.entries);
      TopMembers(st.records, limit);
    }
    TopRecords(st.records, limit);
  }

  /** Every row one call returns over a listing with distinct pids is the row of one listed
      pid directory, computed from the cache as it was before the call, and its owner is
      the name the uid cache after the call holds for the process's uid. */
  lemma ProcessesStepRows(c: ProcessCache, users: map<int, string>, inp: ProcessInputs, limit: int)
    requires DistinctPids(inp.entries)
    requires FillMemTotal(c.memTotalKb, inp.meminfo).MemTotalKnown?
    ensures ProcessesStep(c, users, inp, limit).0.Some?
    ensures var ctx := ScanContext(Elapsed(c.prevTime, inp.now), FillMemTotal(c.memTotalKb, inp.meminfo).kb, inp.passwd);
      RowsOfListing(ctx, c.prevTimes, c.prevIo, ProcessesStep(c, users, inp, limit).2, inp.entries,
                    ProcessesStep(c, users, inp, limit).0.value)
  {
    var memTotal := FillMemTotal(c.memTotalKb, inp.meminfo).kb;
    var ctx := ScanContext(Elapsed(c.prevTime, inp.now), memTotal, inp.passwd);
    var st := CallScan(c, users, inp, memTotal);
    ScanSpecInvariant(ctx, InitialScan(c, users), inp.entries);
    var out := Take(SortByCpuTime(st.records), limit);
    TopMembers(st.records, limit);
    assert ProcessesStep(c, users, inp, limit).0 == Some(out);
  }

  /** The owner of every row one call returns over a listing with distinct pids: "N/A"
      for a process without a Uid line, and otherwise the name the uid cache after the
      call holds for its uid. */
  lemma ProcessesStepOwners(c: ProcessCache, users: map<int, string>, inp: ProcessInputs, limit: int)
    requires DistinctPids(inp.entries)
    requires FillMemTotal(c.memTotalKb, inp.meminfo).MemTotalKnown?
    ensures ProcessesStep(c, users, inp, limit).0.Some?
    ensures var (out, _, users') := ProcessesStep(c, users, inp, limit);
      forall r :: r in out.value ==>
        exists i :: 0 <= i < |inp.entries| && IsPidDir(inp.entries[i]) && PidOf(inp.entries[i]) == r.pid
          && ParseStatus(inp.entries[i].status).Some?
          && var uid := ParseStatus(inp.entries[i].status).value.uid;
             && (uid == -1 ==> r.username == "N/A")
             && (uid != -1 ==> uid in users' && users'[uid] == r.username)
  {
    ProcessesStepRows(c, users, inp, limit);
  }

  /** The figures of a row against the cache before its scan: the CPU share is the growth
      of the pid's ticks since the cached ticks, or since 0 for a pid seen for the first
      time; a pid without cached I/O counters has zero I/O rates; nothing is negative. */
  lemma RowFigures(ctx: ScanContext, prevTimes: map<string, int>, prevIo: map<string, IoCounters>,
                   e: ProcEntry, r: ProcessRecord)
    requires RecordOfEntry(ctx, prevTimes, prevIo, e, r)
    ensures r.pid == PidOf(e) && RecordNonNegative(r)
    ensures var ticks := ParseStat(e.stat).value.ticks;
      var prev := if e.name in prevTimes then prevTimes[e.name] else 0;
      && (ticks >= prev ==> r.cpuPercent == (ticks - prev) as real / ctx.elapsed)
      && (ticks < prev ==> r.cpuPercent == 0.0)
    ensures e.name !in prevIo ==> r.ioReadBps == 0.0 && r.ioWriteBps == 0.0
  {
    var ticks := ParseStat(e.stat).value.ticks;
    CpuPercentMeaning(ticks, if e.name in prevTimes then prevTimes[e.name] else 0, ctx.elapsed);
  }

  /** Whenever a call returns, its rows are sorted by CPU time, most first, and there are
      no more of them than a non-negative limit. */
  lemma ProcessesStepSorted(c: ProcessCache, users: map<int, string>, inp: ProcessInputs, limit: int)
    requires ProcessesStep(c, users, inp, limit).0.Some?
    ensures var out := ProcessesStep(c, users, inp, limit).0.value;
      SortedByCpuTime(out) && (limit >= 0 ==> |out| <= limit)
  {
    var st := CallScan(c, users, inp, FillMemTotal(c.memTotalKb, inp.meminfo).kb);
    assert ProcessesStep(c, users, inp, limit).0 == Some(Take(SortByCpuTime(st.records), limit));
    TopRecords(st.records, limit);
  }
}
