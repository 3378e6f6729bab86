/** `get_global_info` (model.py and its model_system.py variant): system CPU usage from
    /proc/stat, memory and swap from /proc/meminfo, the number of processes and threads,
    and the physical-disk throughput from /proc/diskstats. Each reading is a function of
    the file contents and the previous samples kept in the module-level cache; the loops
    of the source are the methods at the end of this module. */
module SystemMetrics {
  import opened Wrappers
  import opened Text
  import opened ProcFiles

  /** Which of the two collector modules is meant: model.py (wired into the controller)
      or model_system.py (no swap keys in its result, open files in its details). */
  datatype Variant = ModelPy | ModelSystemPy

  /** Bytes per disk sector (`SECTOR_SIZE`). */
  const SectorSize: int := 512

  function Max0(x: real): real {
    if x < 0.0 then 0.0 else x
  }

  function Sum(xs: seq<int>): int
    decreases |xs|
  {
    if |xs| == 0 then 0 else Sum(xs[..|xs| - 1]) + xs[|xs| - 1]
  }

  lemma {:induction false} SumAppend(a: seq<int>, b: seq<int>)
    ensures Sum(a + b) == Sum(a) + Sum(b)
    decreases |b|
  {
    if |b| > 0 {
      assert (a + b)[..|a + b| - 1] == a + b[..|b| - 1];
      SumAppend(a, b[..|b| - 1]);
    } else {
      assert a + b == a;
    }
  }

  lemma {:induction false} SumNonNegative(xs: seq<int>)
    requires forall i :: 0 <= i < |xs| ==> xs[i] >= 0
    ensures Sum(xs) >= 0
    decreases |xs|
  {
    if |xs| > 0 {
      SumNonNegative(xs[..|xs| - 1]);
    }
  }

  lemma SumPrefixStep(xs: seq<int>, k: nat)
    requires 0 < k <= |xs|
    ensures Sum(xs[..k]) == Sum(xs[..k - 1]) + xs[k - 1]
  {
    assert xs[..k][..k - 1] == xs[..k - 1];
  }

  /** `list(map(int, words))`: `None` when some word is not an integer (ValueError). */
  function ParseInts(ws: seq<string>): (r: Option<seq<int>>)
    ensures r.Some? ==> |r.value| == |ws| && forall i :: 0 <= i < |ws| ==> ParseInt(ws[i]) == Some(r.value[i])
    ensures r.None? ==> exists i :: 0 <= i < |ws| && ParseInt(ws[i]).None?
    decreases |ws|
  {
    if |ws| == 0 then Some([])
    else
      match ParseInt(ws[0])
      case None => None
      case Some(x) =>
        match ParseInts(ws[1..])
        case None =>
          ghost var i :| 0 <= i < |ws| - 1 && ParseInt(ws[1..][i]).None?;
          assert ParseInt(ws[i + 1]).None?;
          None
        case Some(xs) => Some([x] + xs)
  }

  // ---------------------------------------------------------------------------------
  // System CPU usage (/proc/stat, first line)
  // ---------------------------------------------------------------------------------

  /** The cached previous sample: idle + iowait ticks and the sum of all fields. */
  datatype CpuPrev = CpuPrev(idle: int, total: int)

  datatype CpuReading =
    | CpuRaised                                                // PermissionError and other OSErrors escape
    | CpuReading(usedPercent: real, idlePercent: real, next: CpuPrev)

  /** The counters after the "cpu" label of the first line. */
  function CpuTokens(lines: seq<string>): seq<string> {
    var ws := Words(FirstLine(lines));
    if |ws| == 0 then [] else ws[1..]
  }

  /** CPU usage from the parsed counters. With a valid prior sample (a positive previous
      total that the current total exceeds) it is the share of non-idle ticks since then;
      otherwise it is the first-sample share since boot. Too few counters for the branch
      taken is the IndexError case: zero usage and the cache left alone. */
  function CpuFromFields(fields: seq<int>, prev: CpuPrev): (r: CpuReading)
    ensures r.CpuReading?
  {
    if |fields| < 5 then CpuReading(0.0, 0.0, prev)
    else
      var idle := fields[3] + fields[4];
      var total := Sum(fields);
      if prev.total > 0 && total > prev.total then
        var totalDiff := (total - prev.total) as real;
        var idleDiff := (idle - prev.idle) as real;
        CpuReading((1.0 - idleDiff / totalDiff) * 100.0, idleDiff / totalDiff * 100.0, CpuPrev(idle, total))
      else if |fields| < 8 then CpuReading(0.0, 0.0, prev)
      else
        var nonIdle := fields[0] + fields[1] + fields[2] + fields[5] + fields[6] + fields[7];
        CpuReading(
          if total > 0 then nonIdle as real / total as real * 100.0 else 0.0,
          if total > 0 then fields[3] as real / total as real * 100.0 else 0.0,
          CpuPrev(idle, total))
  }

  /** The CPU part of `get_global_info`. A missing file or a non-integer counter is caught
      (zero usage, cache unchanged); any other read error escapes. */
  function SystemCpu(stat: ReadOutcome, prev: CpuPrev): CpuReading {
    match stat
    case NotFound => CpuReading(0.0, 0.0, prev)
    case PermissionDenied => CpuRaised
    case OtherError => CpuRaised
    case Lines(lines) =>
      match ParseInts(CpuTokens(lines))
      case None => CpuReading(0.0, 0.0, prev)
      case Some(fields) => CpuFromFields(fields, prev)
  }

  /** With a valid prior sample, used and idle percentages add up to exactly 100 (neither
      is clamped, so either may lie outside [0, 100]). */
  lemma CpuWithPriorSumsTo100(fields: seq<int>, prev: CpuPrev)
    requires |fields| >= 5 && prev.total > 0 && Sum(fields) > prev.total
    ensures var r := CpuFromFields(fields, prev);
      r.usedPercent + r.idlePercent == 100.0
  {
  }

  /** The first-sample branch never adds up to more than 100 when the counters are
      non-negative, because the six non-idle counters and `idle` are part of the total. */
  lemma CpuFirstSampleBounded(fields: seq<int>, prev: CpuPrev)
    requires |fields| >= 8 && forall i :: 0 <= i < |fields| ==> fields[i] >= 0
    requires !(prev.total > 0 && Sum(fields) > prev.total)
    ensures var r := CpuFromFields(fields, prev);
      && 0.0 <= r.usedPercent && 0.0 <= r.idlePercent
      && r.usedPercent + r.idlePercent <= 100.0
  {
    FirstEightWithinTotal(fields);
    var nonIdle := fields[0] + fields[1] + fields[2] + fields[5] + fields[6] + fields[7];
    if Sum(fields) > 0 {
      SharesWithinWhole(nonIdle, fields[3], Sum(fields));
    }
  }

  /** The first eight counters of a non-negative sample are part of its total. */
  lemma FirstEightWithinTotal(fields: seq<int>)
    requires |fields| >= 8 && forall i :: 0 <= i < |fields| ==> fields[i] >= 0
    ensures fields[0] + fields[1] + fields[2] + fields[3] + fields[5] + fields[6] + fields[7] <= Sum(fields)
  {
    var head := fields[..8];
    assert fields == head + fields[8..];
    SumAppend(head, fields[8..]);
    SumNonNegative(fields[8..]);
    SumPrefixStep(fields, 1);
    SumPrefixStep(fields, 2);
    SumPrefixStep(fields, 3);
    SumPrefixStep(fields, 4);
    SumPrefixStep(fields, 5);
    SumPrefixStep(fields, 6);
    SumPrefixStep(fields, 7);
    SumPrefixStep(fields, 8);
    assert fields[..0] == [];
  }

  /** Two non-negative parts of a positive whole are at most 100 percent of it together. */
  lemma SharesWithinWhole(a: int, b: int, whole: int)
    requires 0 <= a && 0 <= b && a + b <= whole && whole > 0
    ensures 0.0 <= a as real / whole as real * 100.0 && 0.0 <= b as real / whole as real * 100.0
    ensures a as real / whole as real * 100.0 + b as real / whole as real * 100.0 <= 100.0
  {
    var t := whole as real;
    assert a as real / t * 100.0 + b as real / t * 100.0 == (a + b) as real / t * 100.0;
    assert (a + b) as real / t <= 1.0;
  }

  /** Whenever usage is computed, the cache is overwritten with this sample's idle + iowait
      ticks and total; when the counters cannot be used it keeps the previous sample. */
  lemma CpuCacheOverwritten(lines: seq<string>, prev: CpuPrev)
    ensures var r := SystemCpu(Lines(lines), prev);
      match ParseInts(CpuTokens(lines))
      case None => r == CpuReading(0.0, 0.0, prev)
      case Some(fields) =>
        if |fields| >= 8 || (|fields| >= 5 && prev.total > 0 && Sum(fields) > prev.total) then
          r.next == CpuPrev(fields[3] + fields[4], Sum(fields))
        else
          r == CpuReading(0.0, 0.0, prev)
  {
    var parsed := ParseInts(CpuTokens(lines));
    if parsed.Some? {
      assert SystemCpu(Lines(lines), prev) == CpuFromFields(parsed.value, prev);
      CpuFromFieldsCache(parsed.value, prev);
    }
  }

  lemma CpuFromFieldsCache(fields: seq<int>, prev: CpuPrev)
    ensures var r := CpuFromFields(fields, prev);
      if |fields| >= 8 || (|fields| >= 5 && prev.total > 0 && Sum(fields) > prev.total) then
        r.next == CpuPrev(fields[3] + fields[4], Sum(fields))
      else
        r == CpuReading(0.0, 0.0, prev)
  {
  }

  // ---------------------------------------------------------------------------------
  // Memory and swap (/proc/meminfo)
  // ---------------------------------------------------------------------------------

  /** Outcome of parsing the meminfo lines into a key -> kB table. */
  datatype MemParse =
    | MemTable(table: map<string, int>)
    | MemBadLine                          // a line without ':' or with a non-integer value: ValueError, caught
    | MemEmptyValue                       // nothing after the ':': IndexError, escapes

  /** Folds the lines left to right into `acc`; the first bad line ends the parse. */
  function ParseMeminfoFrom(lines: seq<string>, acc: map<string, int>): MemParse
    decreases |lines|
  {
    if |lines| == 0 then MemTable(acc)
    else
      var parts := SplitFirst(lines[0], ':');
      if |parts| != 2 then MemBadLine
      else
        var ws := Words(parts[1]);
        if |ws| == 0 then MemEmptyValue
        else
          match ParseInt(ws[0])
          case None => MemBadLine
          case Some(v) => ParseMeminfoFrom(lines[1..], acc[Strip(parts[0]) := v])
  }

  function ParseMeminfo(lines: seq<string>): MemParse {
    ParseMeminfoFrom(lines, map[])
  }

  /** `dict.get(key, default)`. */
  function Get(t: map<string, int>, key: string, default: int): int {
    if key in t then t[key] else default
  }

  /** MemTotal, or 1 when the table has none. */
  function TotalKb(t: map<string, int>): int {
    Get(t, "MemTotal", 1)
  }

  /** MemAvailable, else MemFree, else 0. */
  function AvailableKb(t: map<string, int>): int {
    Get(t, "MemAvailable", Get(t, "MemFree", 0))
  }

  datatype MemReading =
    | MemRaised
    | MemReading(
        usedKb: int, usedPercent: real, freePercent: real,
        swapTotalKb: int, swapUsedKb: int, swapUsedPercent: real,
        memTotalCache: Option<int>, swapTotalCache: Option<int>)

  /** The memory figures of a parsed table. model.py also derives the swap percentage and
      caches the swap total; model_system.py computes the swap use without a percentage. */
  function MemoryFromTable(v: Variant, t: map<string, int>, swapCache: Option<int>): MemReading {
    var total := TotalKb(t);
    var avail := AvailableKb(t);
    var swapTotal := Get(t, "SwapTotal", 0);
    var swapFree := Get(t, "SwapFree", 0);
    var usedKb := if total > 0 then total - avail else 0;
    var usedPct := if total > 0 then (1.0 - avail as real / total as real) * 100.0 else 0.0;
    var freePct := if total > 0 then avail as real / total as real * 100.0 else 0.0;
    match v
    case ModelPy =>
      var swapUsed := if swapTotal > 0 then swapTotal - swapFree else 0;
      var swapPct := if swapTotal > 0 then swapUsed as real / swapTotal as real * 100.0 else 0.0;
      MemReading(usedKb, usedPct, freePct, swapTotal, swapUsed, swapPct, Some(total), Some(swapTotal))
    case ModelSystemPy =>
      MemReading(usedKb, usedPct, freePct, swapTotal, swapTotal - swapFree, 0.0, Some(total), swapCache)
  }

  /** The memory part of `get_global_info`: a missing file or a ValueError gives zero
      figures and leaves the caches alone; an empty value or any other read error escapes. */
  function MemoryStep(v: Variant, meminfo: ReadOutcome, memCache: Option<int>, swapCache: Option<int>): MemReading {
    match meminfo
    case NotFound => MemReading(0, 0.0, 0.0, 0, 0, 0.0, memCache, swapCache)
    case PermissionDenied => MemRaised
    case OtherError => MemRaised
    case Lines(lines) =>
      match ParseMeminfo(lines)
      case MemBadLine => MemReading(0, 0.0, 0.0, 0, 0, 0.0, memCache, swapCache)
      case MemEmptyValue => MemRaised
      case MemTable(t) => MemoryFromTable(v, t, swapCache)
  }

  /** With a positive MemTotal, used and free percentages add up to 100 and the used
      kilobytes are MemTotal minus the available memory; the cached total is MemTotal. */
  lemma MemoryWithTotal(v: Variant, t: map<string, int>, swapCache: Option<int>)
    requires TotalKb(t) > 0
    ensures var m := MemoryFromTable(v, t, swapCache);
      && m.usedPercent + m.freePercent == 100.0
      && m.usedKb == TotalKb(t) - AvailableKb(t)
      && m.memTotalCache == Some(TotalKb(t))
  {
  }

  /** Without a MemTotal line the total is taken as 1 kB; without MemAvailable the
      available memory is MemFree, and without both it is 0. */
  lemma MemoryDefaults(t: map<string, int>)
    ensures "MemTotal" !in t ==> TotalKb(t) == 1
    ensures "MemAvailable" !in t && "MemFree" in t ==> AvailableKb(t) == t["MemFree"]
    ensures "MemAvailable" !in t && "MemFree" !in t ==> AvailableKb(t) == 0
  {
  }

  /** model.py: no swap means zero swap use; otherwise the used share of the swap total. */
  lemma SwapModelPy(t: map<string, int>, swapCache: Option<int>)
    ensures var m := MemoryFromTable(ModelPy, t, swapCache);
      && (Get(t, "SwapTotal", 0) == 0 ==> m.swapUsedKb == 0 && m.swapUsedPercent == 0.0)
      && (Get(t, "SwapTotal", 0) > 0 ==>
            m.swapUsedKb == Get(t, "SwapTotal", 0) - Get(t, "SwapFree", 0)
            && m.swapUsedPercent * Get(t, "SwapTotal", 0) as real == m.swapUsedKb as real * 100.0)
      && m.swapTotalCache == Some(Get(t, "SwapTotal", 0))
  {
  }

  /** model_system.py: swap use is SwapTotal - SwapFree whatever the total, and the swap
      cache is not touched. */
  lemma SwapModelSystemPy(t: map<string, int>, swapCache: Option<int>)
    ensures var m := MemoryFromTable(ModelSystemPy, t, swapCache);
      m.swapUsedKb == Get(t, "SwapTotal", 0) - Get(t, "SwapFree", 0) && m.swapTotalCache == swapCache
  {
  }

  // ---------------------------------------------------------------------------------
  // Process and thread count (/proc/<pid>/status)
  // ---------------------------------------------------------------------------------

  datatype ThreadsRead = ThreadsRaised | ThreadsAdd(n: int)

  /** Threads contributed by one process: the value of its first "Threads:" line. A missing
      or unreadable file, or a non-integer value, contributes nothing; a "Threads:" line
      with no value (IndexError) or another read error escapes. */
  function ThreadsOf(status: ReadOutcome): ThreadsRead {
    match status
    case NotFound => ThreadsAdd(0)
    case PermissionDenied => ThreadsAdd(0)
    case OtherError => ThreadsRaised
    case Lines(lines) =>
      match FirstStartingWith(lines, "Threads:")
      case None => ThreadsAdd(0)
      case Some(line) =>
        var ws := Words(line);
        if |ws| < 2 then ThreadsRaised
        else
          match ParseInt(ws[1])
          case None => ThreadsAdd(0)
          case Some(n) => ThreadsAdd(n)
  }

  datatype Counts = Counts(processes: nat, threads: int)

  /** Processes and threads over a `/proc` listing; `None` when a status read escapes. */
  function CountSpec(entries: seq<ProcEntry>): Option<Counts>
    decreases |entries|
  {
    if |entries| == 0 then Some(Counts(0, 0))
    else
      match CountSpec(entries[..|entries| - 1])
      case None => None
      case Some(c) =>
        var e := entries[|entries| - 1];
        if !IsPidDir(e) then Some(c)
        else
          match ThreadsOf(e.status)
          case ThreadsRaised => None
          case ThreadsAdd(n) => Some(Counts(c.processes + 1, c.threads + n))
  }

  /** Number of pid directories in a listing. */
  function PidDirCount(entries: seq<ProcEntry>): nat
    decreases |entries|
  {
    if |entries| == 0 then 0
    else PidDirCount(entries[..|entries| - 1]) + (if IsPidDir(entries[|entries| - 1]) then 1 else 0)
  }

  /** The count fails exactly when some pid directory's status read escapes; otherwise
      every pid directory, and nothing else, is counted once. */
  lemma {:induction false} CountSpecMeaning(entries: seq<ProcEntry>)
    ensures CountSpec(entries).None? <==>
      exists i :: 0 <= i < |entries| && IsPidDir(entries[i]) && ThreadsOf(entries[i].status).ThreadsRaised?
    ensures CountSpec(entries).Some? ==> CountSpec(entries).value.processes == PidDirCount(entries)
    decreases |entries|
  {
    if |entries| > 0 {
      var init := entries[..|entries| - 1];
      CountSpecMeaning(init);
      if CountSpec(init).None? {
        var i :| 0 <= i < |init| && IsPidDir(init[i]) && ThreadsOf(init[i].status).ThreadsRaised?;
        assert entries[i] == init[i];
      } else {
        forall i | 0 <= i < |entries| - 1
          ensures !(IsPidDir(entries[i]) && ThreadsOf(entries[i].status).ThreadsRaised?)
        {
          assert entries[i] == init[i];
        }
      }
    }
  }

  // ---------------------------------------------------------------------------------
  // Physical-disk throughput (/proc/diskstats)
  // ---------------------------------------------------------------------------------

  const PhysicalPrefixes: seq<string> := ["sd", "hd", "vd", "xvd"]
  const NvmePrefix: string := "nvme"
  const VirtualPrefixes: seq<string> := ["sr", "loop", "ram", "dm-"]

  /** The name starts with `p` and has no digit after it (a whole disk, not a partition). */
  predicate WholeDiskAfter(name: string, p: string) {
    StartsWith(name, p) && !HasDigit(name[|p|..])
  }

  /** model.py's loop: the first prefix the name starts with decides, then `break`. */
  function FirstPrefixDecides(name: string, ps: seq<string>): bool
    decreases |ps|
  {
    if |ps| == 0 then false
    else if StartsWith(name, ps[0]) then !HasDigit(name[|ps[0]|..])
    else FirstPrefixDecides(name, ps[1..])
  }

  /** model_system.py's loop: any prefix with no digit after it. */
  function AnyPrefixMatches(name: string, ps: seq<string>): bool
    decreases |ps|
  {
    |ps| > 0 && (WholeDiskAfter(name, ps[0]) || AnyPrefixMatches(name, ps[1..]))
  }

  predicate StartsWithAny(name: string, ps: seq<string>) {
    exists p :: p in ps && StartsWith(name, p)
  }

  /** The device filter of each variant: a whole sd/hd/vd/xvd disk or an nvme namespace
      without a 'p' partition suffix, and never a cd-rom, loop, ram or device-mapper device. */
  predicate IsPhysicalDisk(v: Variant, name: string) {
    var physical := if v == ModelPy then FirstPrefixDecides(name, PhysicalPrefixes)
                    else AnyPrefixMatches(name, PhysicalPrefixes);
    var nvme := StartsWith(name, NvmePrefix) && 'p' !in name[|NvmePrefix|..];
    (physical || nvme) && !StartsWithAny(name, VirtualPrefixes)
  }

  /** Non-empty prefixes with pairwise different first characters. */
  predicate FirstCharsDistinct(ps: seq<string>) {
    (forall i :: 0 <= i < |ps| ==> |ps[i]| > 0)
    && forall i, j :: 0 <= i < j < |ps| ==> ps[i][0] != ps[j][0]
  }

  lemma {:induction false} AnyPrefixMeaning(name: string, ps: seq<string>)
    ensures AnyPrefixMatches(name, ps) <==> exists p :: p in ps && WholeDiskAfter(name, p)
    decreases |ps|
  {
    if |ps| > 0 {
      AnyPrefixMeaning(name, ps[1..]);
      assert forall p :: p in ps <==> p == ps[0] || p in ps[1..];
    }
  }

  /** When no two prefixes share a first character, at most one can match, so breaking at
      the first match and looking for any match accept the same names. */
  lemma {:induction false} FirstPrefixIsAnyPrefix(name: string, ps: seq<string>)
    requires FirstCharsDistinct(ps)
    ensures FirstPrefixDecides(name, ps) == AnyPrefixMatches(name, ps)
    decreases |ps|
  {
    if |ps| > 0 {
      var rest := ps[1..];
      assert FirstCharsDistinct(rest) by {
        forall i, j | 0 <= i < j < |rest| ensures rest[i][0] != rest[j][0] {
          assert rest[i] == ps[i + 1] && rest[j] == ps[j + 1];
        }
      }
      FirstPrefixIsAnyPrefix(name, rest);
      if StartsWith(name, ps[0]) {
        AnyPrefixMeaning(name, rest);
        forall p | p in rest
          ensures !StartsWith(name, p)
        {
          var k :| 0 <= k < |rest| && rest[k] == p;
          assert ps[k + 1] == p && ps[0][0] != p[0];
        }
      }
    }
  }

  /** Both variants accept exactly the same device names. */
  lemma DiskFilterVariantsAgree(name: string)
    ensures IsPhysicalDisk(ModelPy, name) == IsPhysicalDisk(ModelSystemPy, name)
  {
    FirstPrefixIsAnyPrefix(name, PhysicalPrefixes);
  }

  /** The filter accepts a name iff it is a whole disk after one of sd/hd/vd/xvd or an
      nvme name without 'p' after "nvme", and does not start with sr/loop/ram/dm-. */
  lemma DiskFilterMeaning(v: Variant, name: string)
    ensures IsPhysicalDisk(v, name) <==>
      && ((exists p :: p in PhysicalPrefixes && WholeDiskAfter(name, p))
          || (StartsWith(name, NvmePrefix) && 'p' !in name[|NvmePrefix|..]))
      && !StartsWithAny(name, VirtualPrefixes)
  {
    FirstPrefixIsAnyPrefix(name, PhysicalPrefixes);
    AnyPrefixMeaning(name, PhysicalPrefixes);
  }

  /** The sr/loop/ram/dm- exclusion never rejects a name the prefix tests accepted: no such
      name starts with sd, hd, vd, xvd or nvme. */
  lemma VirtualExclusionIsRedundant(v: Variant, name: string)
    requires StartsWithAny(name, VirtualPrefixes)
    ensures !(exists p :: p in PhysicalPrefixes && StartsWith(name, p))
    ensures !StartsWith(name, NvmePrefix)
  {
    var q :| q in VirtualPrefixes && StartsWith(name, q);
    assert name[0] == q[0];
    assert q == "sr" ==> name[1] == 'r';
  }

  /** Of sda, sda1, nvme0n1, nvme0n1p1 and loop0, only sda and nvme0n1 count. */
  lemma DiskFilterExamples(v: Variant)
    ensures IsPhysicalDisk(v, "sda")
    ensures !IsPhysicalDisk(v, "sda1")
    ensures IsPhysicalDisk(v, "nvme0n1")
    ensures !IsPhysicalDisk(v, "nvme0n1p1")
    ensures !IsPhysicalDisk(v, "loop0")
  {
    WholeDisk(v);
    Partition(v);
    NvmeNamespace(v);
    NvmePartition(v);
    LoopDevice(v);
  }

  lemma WholeDisk(v: Variant)
    ensures IsPhysicalDisk(v, "sda")
  {
    DiskFilterMeaning(v, "sda");
    assert "sda"[2..] == "a";
    assert WholeDiskAfter("sda", "sd");
    assert "sda"[0] == 's' && "sda"[1] == 'd';
  }

  lemma Partition(v: Variant)
    ensures !IsPhysicalDisk(v, "sda1")
  {
    DiskFilterMeaning(v, "sda1");
    assert "sda1"[2..] == "a1" && IsDigit("a1"[1]);
    assert "sda1"[0] == 's' && "sda1"[1] == 'd';
  }

  lemma NvmeNamespace(v: Variant)
    ensures IsPhysicalDisk(v, "nvme0n1")
  {
    DiskFilterMeaning(v, "nvme0n1");
    assert StartsWith("nvme0n1", NvmePrefix);
    assert "nvme0n1"[4..] == "0n1";
    assert "nvme0n1"[0] == 'n';
  }

  lemma NvmePartition(v: Variant)
    ensures !IsPhysicalDisk(v, "nvme0n1p1")
  {
    DiskFilterMeaning(v, "nvme0n1p1");
    assert "nvme0n1p1"[4..] == "0n1p1" && "0n1p1"[3] == 'p';
    assert "nvme0n1p1"[0] == 'n';
  }

  lemma LoopDevice(v: Variant)
    ensures !IsPhysicalDisk(v, "loop0")
  {
    DiskFilterMeaning(v, "loop0");
    assert StartsWith("loop0", "loop") && "loop" in VirtualPrefixes;
  }

  datatype DiskTotals = DiskTotals(readBytes: int, writeBytes: int)

  /** Bytes read and written by the device on one diskstats line, or `None` when the line
      is skipped: fewer than 10 fields, not a physical disk, or a non-integer count. */
  function DiskLine(v: Variant, line: string): Option<DiskTotals> {
    var fs := Words(line);
    if |fs| < 10 || !IsPhysicalDisk(v, fs[2]) then None
    else
      match (ParseInt(fs[5]), ParseInt(fs[9]))
      case (Some(r), Some(w)) => Some(DiskTotals(r * SectorSize, w * SectorSize))
      case _ => None
  }

  function AddDisk(t: DiskTotals, line: Option<DiskTotals>): DiskTotals {
    match line
    case None => t
    case Some(d) => DiskTotals(t.readBytes + d.readBytes, t.writeBytes + d.writeBytes)
  }

  /** Sectors read and written over all physical disks, in bytes. */
  function AggregateDisk(v: Variant, lines: seq<string>): DiskTotals
    decreases |lines|
  {
    if |lines| == 0 then DiskTotals(0, 0)
    else AddDisk(AggregateDisk(v, lines[..|lines| - 1]), DiskLine(v, lines[|lines| - 1]))
  }

  /** The totals of a file are the sums of the totals of its parts. */
  lemma {:induction false} AggregateDiskAppend(v: Variant, a: seq<string>, b: seq<string>)
    ensures AggregateDisk(v, a + b).readBytes == AggregateDisk(v, a).readBytes + AggregateDisk(v, b).readBytes
    ensures AggregateDisk(v, a + b).writeBytes == AggregateDisk(v, a).writeBytes + AggregateDisk(v, b).writeBytes
    decreases |b|
  {
    if |b| == 0 {
      assert a + b == a;
    } else {
      assert (a + b)[..|a + b| - 1] == a + b[..|b| - 1];
      AggregateDiskAppend(v, a, b[..|b| - 1]);
    }
  }

  /** A line with fewer than ten fields contributes nothing, wherever it stands. */
  lemma ShortDiskLineIgnored(v: Variant, a: seq<string>, line: string, b: seq<string>)
    requires |Words(line)| < 10
    ensures AggregateDisk(v, a + [line] + b) == AggregateDisk(v, a + b)
  {
    AggregateDiskAppend(v, a + [line], b);
    AggregateDiskAppend(v, a, b);
    assert (a + [line])[..|a + [line]| - 1] == a;
  }

  /** The totals are whole numbers of sectors. */
  lemma {:induction false} DiskTotalsAreSectors(v: Variant, lines: seq<string>)
    ensures AggregateDisk(v, lines).readBytes % SectorSize == 0
    ensures AggregateDisk(v, lines).writeBytes % SectorSize == 0
    decreases |lines|
  {
    if |lines| > 0 {
      var prev := AggregateDisk(v, lines[..|lines| - 1]);
      DiskTotalsAreSectors(v, lines[..|lines| - 1]);
      match DiskLine(v, lines[|lines| - 1])
      case None =>
      case Some(d) =>
        DiskLineIsSectors(v, lines[|lines| - 1]);
        SectorsAdd(prev.readBytes, d.readBytes);
        SectorsAdd(prev.writeBytes, d.writeBytes);
    }
  }

  lemma DiskLineIsSectors(v: Variant, line: string)
    requires DiskLine(v, line).Some?
    ensures DiskLine(v, line).value.readBytes % SectorSize == 0
    ensures DiskLine(v, line).value.writeBytes % SectorSize == 0
  {
  }

  lemma SectorsAdd(a: int, b: int)
    requires a % SectorSize == 0 && b % SectorSize == 0
    ensures (a + b) % SectorSize == 0
  {
  }

  /** The disk part of `get_global_info`: a missing file counts as no disks; any other
      read error escapes (`None`). */
  function DiskRead(v: Variant, diskstats: ReadOutcome): Option<DiskTotals> {
    match diskstats
    case NotFound => Some(DiskTotals(0, 0))
    case PermissionDenied => None
    case OtherError => None
    case Lines(lines) => Some(AggregateDisk(v, lines))
  }

  /** Bytes per second since the previous sample, clamped at 0. The interval is floored
      at 1 s when it is at most 1 ms; the first sample is diffed against itself, and no
      rate is computed unless the previous sample is more than 0.1 s old. */
  function DiskRates(cur: DiskTotals, prev: Option<DiskTotals>, prevTime: real, now: real): (rates: (real, real))
    ensures rates.0 >= 0.0 && rates.1 >= 0.0
  {
    var elapsed := if now - prevTime <= 0.001 then 1.0 else now - prevTime;
    var p := prev.GetOr(cur);
    if prevTime < now - 0.1 then
      (Max0((cur.readBytes - p.readBytes) as real / elapsed), Max0((cur.writeBytes - p.writeBytes) as real / elapsed))
    else (0.0, 0.0)
  }

  /** The first sample, and any sample within 0.1 s of the previous one, gives 0. */
  lemma DiskRatesZero(cur: DiskTotals, prev: Option<DiskTotals>, prevTime: real, now: real)
    requires prev.None? || prevTime >= now - 0.1
    ensures DiskRates(cur, prev, prevTime, now) == (0.0, 0.0)
  {
  }

  /** Once the 0.1 s gate is passed the interval is the real one, so the 1 s floor never
      affects a rate, and growing counters give their growth per second. */
  lemma DiskRatesAfterGate(cur: DiskTotals, p: DiskTotals, prevTime: real, now: real)
    requires prevTime < now - 0.1
    requires p.readBytes <= cur.readBytes && p.writeBytes <= cur.writeBytes
    ensures DiskRates(cur, Some(p), prevTime, now) ==
      ((cur.readBytes - p.readBytes) as real / (now - prevTime),
       (cur.writeBytes - p.writeBytes) as real / (now - prevTime))
  {
  }

  // ---------------------------------------------------------------------------------
  // The whole reading
  // ---------------------------------------------------------------------------------

  /** The module-level cache entries `get_global_info` reads and writes. */
  datatype GlobalCache = GlobalCache(
    cpu: CpuPrev,
    memTotalKb: Option<int>,
    swapTotalKb: Option<int>,
    disk: Option<DiskTotals>,
    diskTime: real)

  /** What the kernel files hold at the time of one call, and the clock. */
  datatype GlobalInputs = GlobalInputs(
    stat: ReadOutcome,
    meminfo: ReadOutcome,
    procEntries: seq<ProcEntry>,
    diskstats: ReadOutcome,
    now: real)

  datatype Swap = Swap(totalKb: int, usedKb: int, usedPercent: real)

  /** The result dict; `swap` is present for model.py only. */
  datatype GlobalMetrics = GlobalMetrics(
    cpuPercent: real,
    cpuIdlePercent: real,
    memUsedKb: int,
    memPercent: real,
    memFreePercent: real,
    swap: Option<Swap>,
    processCount: nat,
    threadCount: int,
    diskReadBps: real,
    diskWriteBps: real)

  /** One call of `get_global_info`: the result (`None` when an exception escapes) and the
      cache afterwards. Cache entries written before an exception stay written. */
  function GlobalStep(v: Variant, c: GlobalCache, inp: GlobalInputs): (Option<GlobalMetrics>, GlobalCache) {
    match SystemCpu(inp.stat, c.cpu)
    case CpuRaised => (None, c)
    case CpuReading(cpuUsed, cpuIdle, cpu') =>
      var c1 := c.(cpu := cpu');
      match MemoryStep(v, inp.meminfo, c1.memTotalKb, c1.swapTotalKb)
      case MemRaised => (None, c1)
      case MemReading(usedKb, usedPct, freePct, swapTotal, swapUsed, swapPct, memCache, swapCache) =>
        var c2 := c1.(memTotalKb := memCache, swapTotalKb := swapCache);
        match CountSpec(inp.procEntries)
        case None => (None, c2)
        case Some(counts) =>
          match DiskRead(v, inp.diskstats)
          case None => (None, c2)
          case Some(cur) =>
            var rates := DiskRates(cur, c2.disk, c2.diskTime, inp.now);
            var swap := if v == ModelPy then Some(Swap(swapTotal, swapUsed, swapPct)) else None;
            (Some(GlobalMetrics(cpuUsed, cpuIdle, usedKb, usedPct, freePct, swap,
                                counts.processes, counts.threads, rates.0, rates.1)),
             c2.(disk := Some(cur), diskTime := inp.now))
  }

  /** A completed reading leaves the disk cache holding this call's totals and clock, and
      publishes non-negative disk rates; swap figures are published by model.py only. */
  lemma GlobalStepCompleted(v: Variant, c: GlobalCache, inp: GlobalInputs)
    requires GlobalStep(v, c, inp).0.Some?
    ensures var (r, c') := GlobalStep(v, c, inp);
      && DiskRead(v, inp.diskstats).Some?
      && c'.disk == DiskRead(v, inp.diskstats) && c'.diskTime == inp.now
      && r.value.diskReadBps >= 0.0 && r.value.diskWriteBps >= 0.0
      && (r.value.swap.Some? <==> v == ModelPy)
      && CountSpec(inp.procEntries) == Some(Counts(r.value.processCount, r.value.threadCount))
  {
  }

  /** An exception never touches the disk cache. */
  lemma GlobalStepRaisedKeepsDisk(v: Variant, c: GlobalCache, inp: GlobalInputs)
    requires GlobalStep(v, c, inp).0.None?
    ensures GlobalStep(v, c, inp).1.disk == c.disk && GlobalStep(v, c, inp).1.diskTime == c.diskTime
  {
  }

  // ---------------------------------------------------------------------------------
  // The loops of `get_global_info`
  // ---------------------------------------------------------------------------------

  /** The `/proc/meminfo` reading loop. */
  method ReadMeminfo(lines: seq<string>) returns (r: MemParse)
    ensures r == ParseMeminfo(lines)
  {
    var table: map<string, int> := map[];
    var i := 0;
    while i < |lines|
      invariant 0 <= i <= |lines|
      invariant ParseMeminfoFrom(lines[i..], table) == ParseMeminfo(lines)
    {
      assert lines[i..][1..] == lines[i + 1..];
      var parts := SplitFirst(lines[i], ':');
      if |parts| != 2 {
        return MemBadLine;
      }
      var ws := Words(parts[1]);
      if |ws| == 0 {
        return MemEmptyValue;
      }
      var value := ParseInt(ws[0]);
      if value.None? {
        return MemBadLine;
      }
      table := table[Strip(parts[0]) := value.value];
      i := i + 1;
    }
    return MemTable(table);
  }

  /** The process and thread counting loop over `/proc`. */
  method CountProcessesAndThreads(entries: seq<ProcEntry>) returns (r: Option<Counts>)
    ensures r == CountSpec(entries)
  {
    var processes: nat := 0;
    var threads := 0;
    var i := 0;
    while i < |entries|
      invariant 0 <= i <= |entries|
      invariant CountSpec(entries[..i]) == Some(Counts(processes, threads))
    {
      assert entries[..i + 1][..i] == entries[..i];
      var e := entries[i];
      if IsPidDir(e) {
        processes := processes + 1;
        var t := ThreadsOf(e.status);
        if t.ThreadsRaised? {
          assert CountSpec(entries[..i + 1]).None?;
          CountSpecStaysRaised(entries, i + 1);
          return None;
        }
        threads := threads + t.n;
      }
      i := i + 1;
    }
    assert entries[..i] == entries;
    return Some(Counts(processes, threads));
  }

  /** Once the count has failed on a prefix, it fails on the whole listing. */
  lemma {:induction false} CountSpecStaysRaised(entries: seq<ProcEntry>, k: nat)
    requires k <= |entries| && CountSpec(entries[..k]).None?
    ensures CountSpec(entries).None?
    decreases |entries| - k
  {
    if k < |entries| {
      assert entries[..k + 1][..k] == entries[..k];
      CountSpecStaysRaised(entries, k + 1);
    } else {
      assert entries[..k] == entries;
    }
  }

  /** The /proc/diskstats summing loop. */
  method SumDiskStats(v: Variant, lines: seq<string>) returns (t: DiskTotals)
    ensures t == AggregateDisk(v, lines)
  {
    var readTotal := 0;
    var writeTotal := 0;
    var i := 0;
    while i < |lines|
      invariant 0 <= i <= |lines|
      invariant AggregateDisk(v, lines[..i]) == DiskTotals(readTotal, writeTotal)
    {
      assert lines[..i + 1][..i] == lines[..i];
      var fs := Words(lines[i]);
      if |fs| >= 10 && IsPhysicalDisk(v, fs[2]) {
        var sectorsRead := ParseInt(fs[5]);
        var sectorsWritten := ParseInt(fs[9]);
        if sectorsRead.Some? && sectorsWritten.Some? {
          readTotal := readTotal + sectorsRead.value * SectorSize;
          writeTotal := writeTotal + sectorsWritten.value * SectorSize;
        }
      }
      i := i + 1;
    }
    assert lines[..i] == lines;
    return DiskTotals(readTotal, writeTotal);
  }

  /** The memory part of `get_global_info`: reads `/proc/meminfo` when it could be opened. */
  method ReadMemory(v: Variant, meminfo: ReadOutcome, memCache: Option<int>, swapCache: Option<int>)
    returns (mem: MemReading)
    ensures mem == MemoryStep(v, meminfo, memCache, swapCache)
  {
    if meminfo.Lines? {
      var parsed := ReadMeminfo(meminfo.lines);
      match parsed {
        case MemBadLine => mem := MemReading(0, 0.0, 0.0, 0, 0, 0.0, memCache, swapCache);
        case MemEmptyValue => mem := MemRaised;
        case MemTable(t) => mem := MemoryFromTable(v, t, swapCache);
      }
    } else {
      mem := MemoryStep(v, meminfo, memCache, swapCache);
    }
  }

  /** The disk part of `get_global_info`: sums `/proc/diskstats` when it could be opened. */
  method ReadDisk(v: Variant, diskstats: ReadOutcome) returns (totals: Option<DiskTotals>)
    ensures totals == DiskRead(v, diskstats)
  {
    match diskstats {
      case NotFound => totals := Some(DiskTotals(0, 0));
      case PermissionDenied => totals := None;
      case OtherError => totals := None;
      case Lines(lines) =>
        var t := SumDiskStats(v, lines);
        totals := Some(t);
    }
  }
}
