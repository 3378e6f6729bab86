# Linux host-metrics dashboard, modelled in Dafny

This project models the core of a small Linux monitoring dashboard written in Python. The
core reads the `/proc` pseudo-filesystem, `/etc/passwd` and the mount table. It computes
global figures (CPU, memory, swap, process and thread counts, disk throughput), a table of the
busiest processes, the detail view of one process, the partitions and the listing of a
directory. A controller keeps the latest figures for the page; a background collector
refreshes them. The page validates how many processes to show.

The collector has two variants: `model.py` and `model_system.py`. Each is a module with
mutable caches. The model has one `Variant` parameter where the two differ (swap figures,
the disk filter, the open-descriptor list). File contents, directory listings, `stat` and
`statvfs` results, the clock and `/etc/passwd` are parameters. Each read that can fail is a
datatype with one alternative per exception the code distinguishes.

The modules follow the program:

- `Text`: Python's `split`, `strip`, `startswith`, `int()` and `str()` on strings.
- `Identity`: the UID-to-name cache. The class `UserCache` holds the dictionary.
- `StatusValues`: `_parse_kb_value_from_status_line`, the nice-to-priority labels and the
  kB-to-pages conversion.
- `ProcFiles`: read outcomes and `/proc` directory entries.
- `SystemMetrics`: `get_global_info` as the step function `GlobalStep`. It also holds loop
  methods for `/proc/meminfo`, the process/thread count and `/proc/diskstats`.
- `ProcessTable`: `get_processes_info` as a scan over `/proc`, eviction, a stable sort and a
  slice.
- `ProcessDetails`: `get_process_details` and `get_process_open_files`.
- `Collector`: the class `Collector` holds the module caches; its methods are proved against
  the step functions.
- `Filesystem`: `get_filesystem_info`, `stat.filemode`, `oct()` and `get_directory_contents`.
- `Controller`: the `SystemData` holder, the start-once thread and the collector loop.
- `App`: one run of the page script.

## Model

| member | source | states |
|---|---|---|
| Identity.FirstNaming | model.py:44-51 | the index of the first passwd line whose uid field names the uid; no earlier line names it |
| Identity.FirstNamingUnique | model.py:44-51 | if line i is the first naming line, the lookup answers that line's first field |
| Identity.LookupIsMemoised | model.py:41-42 | once a uid resolves, the cache holds that name; later lookups answer it whatever passwd says, and change nothing |
| Identity.LookupOnlyAdds | model.py:30-61 | a lookup adds at most the asked uid to the cache and keeps every earlier entry |
| Identity.MissAnswersUidText | model.py:56-61 | a uid no passwd line names resolves to its decimal text, which `int()` reads back as the uid |
| Identity.UserCache.constructor | model.py:28 | the cache starts empty |
| Identity.UserCache.Lookup | model.py:30-61 | the answer and the new cache are those of the lookup specification |
| ProcFiles.FirstStartingWith | model.py:517-520 | a found line has the prefix and is the first line that does, as the loop's `break` makes it; none found means no line has it |
| StatusValues.Pages | model.py:544-548 | pages are kB/4 truncated toward zero: p*4 <= kb < p*4+4 for kb >= 0, mirrored for kb < 0 |
| StatusValues.PagesIsOdd | model.py:544-548 | truncation is symmetric: Pages(-kb) == -Pages(kb) |
| StatusValues.PriorityLabel | model.py:586-611 | "N/A" exactly when there is no nice value; every nice in -20..19 has a known label |
| StatusValues.PriorityIsAntitone | model.py:600-611 | a larger nice value never gives a higher priority label |
| StatusValues.ParseKbOfStatusValue | model.py:434-450 | a status value "n kB" parses to n |
| StatusValues.ParseKbFallbacks | model.py:434-450 | the defaults "0 kB" and "N/A" parse to 0 |
| StatusValues.NotAvailableHasNoUnit | model.py:445 | "N/A" has no "kb", so it takes the fallback branch |
| StatusValues.RemoveTrailingKb | model.py:440-446 | removing every "kb" from text without 'k' plus "kb" gives the text back |
| StatusValues.ParseDigitsThenSpace | model.py:440-446 | digits followed by a blank parse to their value |
| Text.ParseIntOfIntToString | app.py:99-104 | `int(str(n)) == n` for every integer n |
| Text.NatToStringDigits | app.py:103 | `str(n)` of a natural is a digit string of value n |
| Text.WordsAreTokens | model.py:81 | every word of `split()` is non-empty and blank-free |
| Text.SplitOnPieces | model.py:474-475 | `split(c)` yields one piece more than c occurs, none containing c |
| SystemMetrics.ParseInts | model.py:81 | `map(int, ...)` succeeds exactly when every word parses, keeping length and values |
| SystemMetrics.CpuWithPriorSumsTo100 | model.py:91-97 | with a prior sample and a grown total, used and idle CPU add up to 100 |
| SystemMetrics.CpuFirstSampleBounded | model.py:98-101 | without a usable prior, both shares are non-negative and add up to at most 100 |
| SystemMetrics.FirstEightWithinTotal | model.py:98 | the non-idle fields sum to at most the total |
| SystemMetrics.SharesWithinWhole | model.py:98-101 | two disjoint parts of a whole are percentages summing to at most 100 |
| SystemMetrics.CpuCacheOverwritten | model.py:77-106 | an unparsable line leaves the CPU cache; otherwise the cache becomes (idle+iowait, total) once the sample is used |
| SystemMetrics.CpuFromFieldsCache | model.py:84-104 | with eight fields, or a usable prior sample, the cache becomes (idle+iowait, total); otherwise the reading is zero and the cache is kept |
| SystemMetrics.ReadMemory | model.py:108-163 | the meminfo step's reading and caches are those of the memory specification |
| SystemMetrics.MemoryWithTotal | model.py:108-130 | with MemTotal known, used + free percent is 100, used kB is total minus available, the total is cached |
| SystemMetrics.MemoryDefaults | model.py:124-127 | a missing MemTotal is 1; a missing MemAvailable falls back to MemFree, then 0 |
| SystemMetrics.SwapModelPy | model.py:142-146 | zero swap gives zero use; otherwise used = total - free and the percent is used/total*100; the total is cached |
| SystemMetrics.SwapModelSystemPy | model_system.py:163-172 | the system variant computes used swap and leaves the swap cache as it was |
| SystemMetrics.CountSpecMeaning | model.py:165-180 | counting raises exactly when some pid directory has an unreadable Threads line; otherwise the process count is the number of pid directories |
| SystemMetrics.CountSpecStaysRaised | model.py:165-180 | once counting has raised on a prefix, the whole count raises |
| SystemMetrics.CountProcessesAndThreads | model.py:165-180 | the loop's result equals the count specification |
| SystemMetrics.ReadMeminfo | model.py:116-120 | the loop's table equals the meminfo parse |
| SystemMetrics.AnyPrefixMeaning | model.py:197-203 | the prefix loop accepts exactly when some prefix is followed by no digit |
| SystemMetrics.FirstPrefixIsAnyPrefix | model.py:199-203 | with prefixes of distinct first letters, stopping at the first matching prefix decides the same |
| SystemMetrics.DiskFilterMeaning | model.py:194-210 | a device counts iff it is a whole disk of a known prefix or an NVMe namespace without 'p', and is not virtual |
| SystemMetrics.DiskFilterVariantsAgree | model_system.py:205-217 | both variants accept the same devices |
| SystemMetrics.VirtualExclusionIsRedundant | model.py:209-210 | a virtual device name never passes the physical tests, so the exclusion never changes the result |
| SystemMetrics.DiskFilterExamples | model.py:194-210 | sda and nvme0n1 count; sda1, nvme0n1p1 and loop0 do not |
| SystemMetrics.WholeDisk | model.py:199-203 | sda counts |
| SystemMetrics.Partition | model.py:199-203 | sda1 does not count |
| SystemMetrics.NvmeNamespace | model.py:204-206 | nvme0n1 counts |
| SystemMetrics.NvmePartition | model.py:204-206 | nvme0n1p1 does not count |
| SystemMetrics.LoopDevice | model.py:209-210 | loop0 does not count |
| SystemMetrics.AggregateDiskAppend | model.py:191-218 | totals over two line groups are the sums of their totals |
| SystemMetrics.ShortDiskLineIgnored | model.py:194 | a line with fewer than ten words adds nothing |
| SystemMetrics.DiskTotalsAreSectors | model.py:211-216 | read and written totals are whole numbers of 512-byte sectors |
| SystemMetrics.DiskLineIsSectors | model.py:212-217 | a counted line adds whole 512-byte sectors for reads and writes |
| SystemMetrics.SumDiskStats | model.py:191-218 | the loop's totals equal the aggregate specification |
| SystemMetrics.ReadDisk | model.py:183-222 | the diskstats step's totals are those of the disk specification, none when the file is unreadable |
| SystemMetrics.DiskRates | model.py:260-261 | reported disk rates are never negative |
| SystemMetrics.DiskRatesZero | model.py:230-238 | the first sample, or a sample within 0.1 s, reports zero rates |
| SystemMetrics.DiskRatesAfterGate | model.py:225-238 | past the gate, rates are byte differences over elapsed time |
| SystemMetrics.GlobalStepCompleted | model.py:63-262 | a completed step caches the disk totals and time, has non-negative rates, has swap exactly in model.py, and reports the counts |
| SystemMetrics.GlobalStepRaisedKeepsDisk | model.py:165-180 | a step that raises while counting leaves the disk cache untouched |
| ProcessTable.CpuPercent | model.py:344-347 | a process's CPU percent is never negative |
| ProcessTable.CpuPercentMeaning | model.py:344-347 | the percent is the tick delta over elapsed time when ticks grew, else 0 |
| ProcessTable.IoRates | model.py:372-380 | I/O rates are non-negative and zero without a previous sample |
| ProcessTable.MemoryPercent | model.py:349-353 | the memory percent is never negative |
| ProcessTable.FillMemTotal | model.py:286-298 | a cached total is reused; a missing meminfo still gives a total; only with no cache can it raise: a denied or failed read, or a MemTotal line without a value (IndexError) |
| ProcessTable.Elapsed | model.py:280-284 | elapsed time is above 0.001 and is the real gap when the gap exceeds 0.001 |
| ProcessTable.PurgeEffect | model.py:336-340 | dropping a failed pid's caches is an allowed effect of one entry |
| ProcessTable.ScanEntryEffect | model.py:303-417 | scanning one entry leaves every other pid's cache entries exactly as they were and keeps every uid-cache entry; a pid directory is marked seen and is either purged from both tables, or gets one appended row computed from the cache before the entry (owner "N/A" without a Uid line, else the name the uid cache now holds for the uid), with its ticks cached, and its io counters cached when they were read or kept as they were when the io file was skipped |
| ProcessTable.ScanResolvedEffect | model.py:342-401 | once the owner is known, the entry is purged or yields a row whose CPU share is measured against the pid's cached ticks (0 if uncached) and whose I/O rates are measured against its cached counters (0 without them or without an io file) |
| ProcessTable.PidNamesAreDigits | model.py:305-306 | every scanned name is a digit string naming a listed pid |
| ProcessTable.DistinctPidsPrefix | model.py:303 | when no two pid directories of the listing parse to the same pid number, the same holds on every prefix |
| ProcessTable.PidValuesOfPrefix | model.py:303 | a pid directory's pid and name do not occur earlier in the listing |
| ProcessTable.ScanInvariantStep | model.py:303-417 | one entry's effect extends the scan invariant by that entry |
| ProcessTable.ScanSpecInvariant | model.py:303-417 | the whole scan leaves unseen pids' cache entries as they were; every record is the row of one listed pid against the cache before the call, non-negative, with the owner the final uid cache holds for its uid ("N/A" without a Uid line); failed pids are out of the records and caches; every other pid directory has its ticks cached, and its io counters when they were read (otherwise the counters it had before the call) |
| ProcessTable.ProcessesStepRows | model.py:303-432 | every returned row is the row of one listed pid directory, computed from the cache as it was before the call, with the owner the uid cache after the call holds for its uid |
| ProcessTable.ProcessesStepOwners | model.py:322-342 | every returned row's owner is "N/A" when its process has no Uid line, and otherwise the name the uid cache after the call maps its uid to |
| ProcessTable.RowFigures | model.py:344-401 | a row's CPU share is its pid's tick growth since the cached ticks over the interval, 0 if the ticks fell; no cached counters means zero I/O rates; nothing is negative |
| ProcessTable.Restrict | model.py:420-426 | eviction keeps exactly the active keys with their values |
| ProcessTable.InsertByCpuTime | model.py:431 | insertion adds exactly the one record |
| ProcessTable.InsertMembers | model.py:431 | an inserted sequence holds only the new record and old ones |
| ProcessTable.InsertKeepsSorted | model.py:431 | insertion into a descending sequence keeps it descending |
| ProcessTable.SortByCpuTime | model.py:431 | the sort is descending by CPU time and a permutation |
| ProcessTable.InsertKeepsTies | model.py:431 | insertion keeps records of equal CPU time in their order |
| ProcessTable.SortIsStable | model.py:431 | records with equal CPU time keep their listing order (Python's sort is stable) |
| ProcessTable.Take | model.py:432 | `[:limit]` has the length Python gives for any limit, including negative ones, and is a prefix |
| ProcessTable.TopRecords | model.py:431-432 | the output is sorted, drawn from the records, min(limit, count) long, and holds the busiest records: none left out has more CPU time than one kept |
| ProcessTable.TopMembers | model.py:431-432 | every output row is a scanned record |
| ProcessTable.ProcessesStepOutput | model.py:264-432 | with distinct pids and a known total the step returns rows; each comes from a listed pid, has non-negative figures and is no pid that failed; the rows are sorted by CPU time, a sub-multiset of the scanned records, and min(limit, count) long for a non-negative limit; no scanned record left out has more CPU time than a returned one |
| ProcessTable.ProcessesStepCache | model.py:356-426 | after the step the caches hold only listed pids and none that failed; every listed pid that did not fail keeps the ticks just read, and the io counters just read (or, when its io file was skipped, those it had before) |
| ProcessTable.ProcessesStepRowsCached | model.py:356-432 | for every returned row, the cache the call leaves holds its pid's ticks as read, and its io counters as read or as before when skipped, for the next call to measure against |
| ProcessTable.ProcessesStepSorted | model.py:431-432 | any returned table is sorted and no longer than a non-negative limit |
| ProcessDetails.StatusTableStep | model.py:472-475 | one more line sets its own key to its value and leaves every other key's presence and value as they were |
| ProcessDetails.StatusTableHasKey | model.py:469-481 | a key is in the status table iff some line of the file has it |
| ProcessDetails.StatusTableLastWins | model.py:469-481 | when line i has the key and no later line does, the table maps the key to line i's value |
| ProcessDetails.ReadStatusTable | model.py:469-481 | the loop builds exactly the status table |
| ProcessDetails.StatFieldsInOrder | model.py:495-505 | each stat field holds its word's value, and is set only when the fields before it were |
| ProcessDetails.StartTimeOf | model.py:510-533 | the start time is unknown exactly when the start ticks are |
| ProcessDetails.StartTimeAgrees | model.py:513-533 | the start is an instant iff the boot time is positive, and lies ticks/100 s after boot |
| ProcessDetails.ClassifyPseudoPaths | model_system.py:470-479 | pseudo-paths are classified by name without probing; other paths are denied iff the probe is |
| ProcessDetails.OpenFilesKeepOrder | model_system.py:464-499 | one row per descriptor that did not vanish, in listing order; all vanished gives none |
| ProcessDetails.ListOpenFiles | model_system.py:443-505 | the loop's rows equal the open-files specification |
| ProcessDetails.DetailsVariantsAgree | model_system.py:508-641 | both variants give the same details and cache; only the system one adds the open files |
| ProcessDetails.DetailsPriority | model.py:500-508 | the priority comes from the stat nice value and is "N/A" iff nice is missing |
| ProcessDetails.ResidentPagesOfStatus | model.py:532-544 | a VmRSS of "n kB" gives floor(n/4) resident pages |
| ProcessDetails.DetailsMemoryDefaults | model.py:532-548 | missing memory keys give "0 kB" and zero pages |
| ProcessDetails.ResolveUser | model.py:485-486 | the shown user and the new user cache are those of the Uid specification |
| ProcessDetails.UserOfWithoutDigits | model.py:485-486 | a first Uid word that is not a digit string, or no Uid line at all, shows "N/A" and leaves the user cache; a Uid value without words raises, also without a lookup |
| ProcessDetails.UserOfIsCached | model.py:485-486 | a digit Uid that resolves to a name leaves that name in the cache under the uid |
| ProcessDetails.ReadDetailsOfUser | model.py:489-578 | the stat, start-time and descriptor steps give the details of the specification, failing where it fails |
| ProcessDetails.DetailsUserIsCached | model.py:485-487 | a numeric Uid leaves its name in the user cache, as shown |
| Collector.Evict | model.py:420-426 | the eviction loop leaves exactly the active pids' entries |
| Collector.Collector.constructor | model.py:12-22 | caches start empty with the import time as the previous timestamps |
| Collector.Collector.GetGlobalInfo | model.py:63-262 | result and new caches are those of the global step; per-process caches unchanged |
| Collector.Collector.Purge | model.py:338-339 | removes one pid from both per-process caches and nothing else |
| Collector.Collector.ScanOne | model.py:305-417 | one loop iteration has exactly the effect of the entry scan |
| Collector.Collector.RecordResolved | model.py:342-401 | recording one readable process matches the specification |
| Collector.Collector.ScanEntries | model.py:303-417 | the records, active pids, caches and user cache after the loop are those of the scan specification; global caches and the previous time unchanged |
| Collector.Collector.GetProcessesInfo | model.py:264-432 | result, caches and user cache are those of the processes step; global caches unchanged |
| Collector.Collector.GetProcessDetails | model.py:452-584 | details and user cache are those of the details specification |
| Collector.Collector.GetProcessOpenFiles | model_system.py:443-505 | the descriptor rows are those of the specification |
| Filesystem.TmpfsExceptionUnreachable | model_file.py:50-54 | every kept mount has a /dev, rootfs or tmpfs device, a shown type and a shown point; the tmpfs exception keeps nothing more |
| Filesystem.PartitionOfShown | model_file.py:56-81 | a reported partition is shown and names its line's device and mount point |
| Filesystem.PartitionsAreShown | model_file.py:34-81 | every reported partition is shown, and there are no more than lines |
| Filesystem.UsageBounded | model_file.py:58-68 | usage is between 0 and 100 percent when free blocks are within the total |
| Filesystem.StopLineEndsScan | model_file.py:34-93 | a two-word line ends the scan: later lines never count |
| Filesystem.SkippedLineIsDropped | model_file.py:37-88 | a skipped line, or one with no usable statvfs, can be removed without changing the result |
| Filesystem.PartitionsFromStep | model_file.py:35-93 | a stop line ends the result; otherwise the result is the first line's partitions followed by the rest's |
| Filesystem.ReadMountLine | model_file.py:36-88 | one iteration yields the specified outcome for its line: skip, stop or the partition |
| Filesystem.GetFilesystemInfo | model_file.py:8-98 | the loop's result equals the mount-table specification |
| Filesystem.Triad | model_file.py:157 | each permission triad is three characters |
| Filesystem.Filemode | model_file.py:157 | `filemode` is ten characters |
| Filesystem.UserTriadBits | model_file.py:157 | the owner triad decodes back to the owner and setuid bits |
| Filesystem.GroupTriadBits | model_file.py:157 | the group triad decodes back to the group and setgid bits |
| Filesystem.OtherTriadBits | model_file.py:157 | the other triad decodes back to the other and sticky bits |
| Filesystem.SplitPermissionBits | model_file.py:157 | the three triads' bits together are the twelve permission bits |
| Filesystem.FilemodeRoundTrip | model_file.py:140-157 | the mode string decodes back to all twelve permission bits and to the item's type label |
| Filesystem.OctalRoundTrip | model_file.py:156 | octal digits read back as their number |
| Filesystem.PermissionsOctalMeaning | model_file.py:156 | the octal text is "0o" plus one to three octal digits worth mode & 0o777 |
| Filesystem.EntryInfoOf | model_file.py:126-181 | a row keeps the item's name and path; sizes are shown only for regular files; a readable item's type is its mode's type |
| Filesystem.EntriesOf | model_file.py:123-181 | one row per listed item |
| Filesystem.StatFailureRow | model_file.py:126-181 | an item whose stat fails gets the N/A row for that error and no user lookup |
| Filesystem.EntriesMatchItems | model_file.py:123-181 | row i is about item i: same name and path; a size only on files |
| Filesystem.SymlinkTypeUnreachable | model_file.py:138-146 | `stat` follows links, so no row is ever typed a symbolic link |
| Filesystem.EntriesOfStep | model_file.py:123-181 | the listing of n+1 items is that of the first n plus the last item's row, with the user cache passed along |
| Filesystem.EntryNeverLink | model_file.py:137-146 | an item whose followed stat is not a link never gets the link type |
| Filesystem.ReadEntries | model_file.py:123-181 | the loop's rows and user cache are those of the listing specification |
| Filesystem.ReadEntry | model_file.py:126-181 | one iteration yields the specified row and user cache |
| Filesystem.GetDirectoryContents | model_file.py:101-188 | the listing and user cache are those of the directory specification, including errors |
| Controller.InitialIsConsistent | controller.py:21-35 | the initial figures and empty list form a consistent pair |
| Controller.UpdateKeepsConsistent | controller.py:38-56 | whatever the collectors do, the published pair stays consistent |
| Controller.PublishedRowsWithinLimit | controller.py:47-52 | when both collectors return, the published list has no more rows than the limit |
| Controller.UpdateAllKeepsConsistent | controller.py:38-56 | after any series of update rounds the published pair is still consistent |
| Controller.SystemData.constructor | controller.py:12-36 | zero figures, no processes, the given limit |
| Controller.SystemData.Update | controller.py:38-56 | the pair, caches and user cache become those of one update round: both results are published only when both collectors return; the collectors' cache changes persist; the limit is unchanged |
| Controller.SystemData.GetSnapshot | controller.py:58-72 | returns the published pair and changes nothing |
| Controller.RunningStaysPut | controller.py:110-121 | once running, further starts change nothing |
| Controller.OnlyFirstStartCounts | controller.py:93-121 | after any sequence of starts one thread runs, at the first call's interval |
| Controller.ControllerState.constructor | controller.py:75-79 | the holder has the default limit and no thread runs |
| Controller.ControllerState.StartBackgroundThread | controller.py:93-121 | the limit is always set; the thread starts only if it was not running |
| Controller.ControllerState.BackgroundDataCollector | controller.py:81-91 | the pair, caches and user cache after the rounds are those of one update per round, in order; the pair stays consistent and the limit unchanged |
| App.MergedMeaning | app.py:66-72 | every key is shown; collected values are kept; missing ones are zero; an empty dict gives the defaults |
| App.KeySets | app.py:53-64 | the page's keys are the nine base keys and the three swap keys, which are disjoint |
| App.AsDictKeys | model.py:249-261 | a collected dict has all twelve keys with swap, and the nine others without |
| App.CollectedDictIsComplete | app.py:66-69 | a dict from model.py is shown unchanged |
| App.InitialInfoIsDefaults | controller.py:21-34 | the controller's initial figures are exactly the page's defaults |
| App.FilledIsMerged | app.py:67-69 | a map holding the collected keys and every page key, with collected values kept and defaults elsewhere, is the merged dict |
| App.MergedOfComplete | app.py:67-69 | a non-empty dict with every page key is left unchanged |
| App.FillDefaults | app.py:66-72 | the setdefault loop gives the merged dict |
| App.ValidateLimitMeaning | app.py:88-104 | the limit stays at least 1; numbers of at least 1 are taken quietly; other input keeps the limit and warns unless it is the limit's own text |
| App.ResubmittingKeepsQuiet | app.py:99-104 | re-submitting the current value neither warns nor changes it |
| App.BlanksAreIgnored | app.py:90 | surrounding blanks do not change validation |
| App.PaddingStrips | app.py:90 | a string with non-blank ends, padded with a blank and a newline, strips back to itself |
| Text.StripUnpadded | app.py:90 | `strip()` leaves a string with non-blank ends unchanged |
| Text.IntToStringUnpadded | app.py:103 | `str(i)` is non-empty and has non-blank ends |
| App.LimitStaysPositive | app.py:88-113 | starting from a valid limit, it stays at least 1 after any series of inputs |
| App.Session.constructor | app.py:42 | the session starts without a process count |
| App.RunPage | app.py:42-122 | the session and controller limit become the validated value; the thread starts at 2 s only if not running; the warning and rerun flags; the merged figures and snapshot rows are what is shown |

## Left out

- Floating point: figures are exact reals and `round(x, 2)` is not applied.
- CpuPercent, IoRates, MemoryPercent, DiskRates: their non-negativity holds for the exact values, before `round`.
- `int()` accepts underscores and non-ASCII digits; the model accepts ASCII digits with an optional sign and surrounding blanks.
- Datetime formatting of modification and start times is not modelled, nor its errors: times stay in seconds.
- Threads, the lock, `time.sleep` and the endless collector loop are not modelled. The loop is a finite sequence of rounds. The lock only makes each update and each snapshot atomic.
- `print` calls are not modelled.
- view.py and the Streamlit calls (`set_page_config`, auto-refresh, `st.rerun`, sidebar warnings) are left out. The rerun and the warning are returned flags; the field's value is an input.
- Path normalisation: `JoinPath` concatenates the directory, a slash and the name.
- Python's built-in sort is modelled by a stable insertion sort; its promises (order, permutation, stability) are proved.
- An fd listing that fails part-way is the prefix listed before the failure.
- A directory iteration that fails part-way is modelled as a failed listing, as both return no rows.
- The `statvfs` error kinds are merged into one, since every kind drops the mount.
- Dict insertion order is not modelled: maps are unordered.
- The controller's collector is model.py: `SystemData` requires the `ModelPy` variant.
- ProcessesStepOutput, ProcessesStepCache, ProcessesStepRows, ProcessesStepOwners, ProcessesStepRowsCached: require distinct pid numbers in the /proc listing (no two pid directories parse to the same pid), which the kernel guarantees.
