/** `get_process_details(pid)` (model.py and model_system.py) and, in the system variant,
    `get_process_open_files(pid)`: the detail view of one process, built from its status
    and stat files, the boot time in /proc/stat and the targets of its descriptors. */
module ProcessDetails {
  import opened Wrappers
  import opened Text
  import opened ProcFiles
  import opened Identity
  import opened StatusValues
  import opened SystemMetrics

  // ---------------------------------------------------------------------------------
  // The status table
  // ---------------------------------------------------------------------------------

  /** `line.split(":", 1)` with both halves stripped, for a line that has a colon. */
  function StatusPair(line: string): Option<(string, string)> {
    if ':' in line then
      var parts := SplitFirst(line, ':');
      Some((Strip(parts[0]), Strip(parts[1])))
    else None
  }

  /** `status_content`: every line with a colon, key to value; later lines win. */
  function StatusTable(lines: seq<string>): map<string, string>
    decreases |lines|
  {
    if |lines| == 0 then map[]
    else
      var table := StatusTable(lines[..|lines| - 1]);
      match StatusPair(lines[|lines| - 1])
      case None => table
      case Some((key, value)) => table[key := value]
  }

  /** The line `line` has key `key`. */
  predicate HasKey(line: string, key: string) {
    StatusPair(line).Some? && StatusPair(line).value.0 == key
  }

  /** What the last line does to the table: a line with the key sets it; any other line
      leaves the key's entry as it was. */
  lemma StatusTableStep(lines: seq<string>, key: string)
    requires |lines| > 0
    ensures var table := StatusTable(lines);
      var before := StatusTable(lines[..|lines| - 1]);
      var last := lines[|lines| - 1];
      && (HasKey(last, key) ==> key in table && table[key] == StatusPair(last).value.1)
      && (!HasKey(last, key) ==> (key in table <==> key in before) && (key in before ==> table[key] == before[key]))
  {
  }

  /** Some line has the key, scanning from the end as the table is built. */
  predicate AnyHasKey(lines: seq<string>, key: string)
    decreases |lines|
  {
    |lines| > 0 && (HasKey(lines[|lines| - 1], key) || AnyHasKey(lines[..|lines| - 1], key))
  }

  lemma {:induction false} AnyHasKeyMeaning(lines: seq<string>, key: string)
    ensures AnyHasKey(lines, key) <==> exists i :: 0 <= i < |lines| && HasKey(lines[i], key)
    decreases |lines|
  {
    if |lines| > 0 {
      var n := |lines| - 1;
      var init := lines[..n];
      AnyHasKeyMeaning(init, key);
      assert AnyHasKey(lines, key) == (HasKey(lines[n], key) || AnyHasKey(init, key));
      if AnyHasKey(lines, key) {
        if !HasKey(lines[n], key) {
          var i :| 0 <= i < |init| && HasKey(init[i], key);
          assert lines[i] == init[i];
        }
      } else {
        forall i | 0 <= i < |lines| ensures !HasKey(lines[i], key) {
          if i < n {
            assert lines[i] == init[i];
          }
        }
      }
    }
  }

  lemma {:induction false} StatusTableHasAny(lines: seq<string>, key: string)
    ensures key in StatusTable(lines) <==> AnyHasKey(lines, key)
    decreases |lines|
  {
    if |lines| > 0 {
      StatusTableHasAny(lines[..|lines| - 1], key);
      StatusTableStep(lines, key);
    }
  }

  /** A key is in the table exactly when some line has it. */
  lemma StatusTableHasKey(lines: seq<string>, key: string)
    ensures key in StatusTable(lines) <==> exists i :: 0 <= i < |lines| && HasKey(lines[i], key)
  {
    StatusTableHasAny(lines, key);
    AnyHasKeyMeaning(lines, key);
  }

  /** The value of a key is that of the last line that has it. */
  lemma {:induction false} StatusTableLastWins(lines: seq<string>, key: string, i: nat)
    requires i < |lines| && HasKey(lines[i], key)
    requires forall j :: i < j < |lines| ==> !HasKey(lines[j], key)
    ensures key in StatusTable(lines) && StatusTable(lines)[key] == StatusPair(lines[i]).value.1
    decreases |lines|
  {
    StatusTableStep(lines, key);
    if i < |lines| - 1 {
      var init := lines[..|lines| - 1];
      forall j | i < j < |init| ensures !HasKey(init[j], key) {
        assert init[j] == lines[j];
      }
      assert init[i] == lines[i];
      StatusTableLastWins(init, key, i);
    }
  }

  /** The status reading loop. */
  method ReadStatusTable(lines: seq<string>) returns (table: map<string, string>)
    ensures table == StatusTable(lines)
  {
    table := map[];
    for i := 0 to |lines|
      invariant table == StatusTable(lines[..i])
    {
      assert lines[..i + 1][..i] == lines[..i];
      var line := lines[i];
      if ':' in line {
        var parts := SplitFirst(line, ':');
        table := table[Strip(parts[0]) := Strip(parts[1])];
      }
    }
    assert lines[..|lines|] == lines;
  }

  /** `status_content.get(key, default)`. */
  function StatusField(table: map<string, string>, key: string, default: string): string {
    if key in table then table[key] else default
  }

  // ---------------------------------------------------------------------------------
  // The fields read from status, stat and /proc/stat
  // ---------------------------------------------------------------------------------

  datatype UserField = UserRaised | UserName(name: string)

  /** The words of the Uid value; a missing Uid line reads as four "N/A" words. */
  function UidWords(table: map<string, string>): seq<string> {
    Words(StatusField(table, "Uid", "N/A N/A N/A N/A"))
  }

  /** The user shown: the first word of the Uid value resolved through the user cache when
      it is a digit string, "N/A" otherwise. An empty Uid value has no first word (the
      IndexError case), and a failing passwd read escapes. */
  function UserOf(table: map<string, string>, users: map<int, string>, passwd: PasswdFile)
    : (UserField, map<int, string>)
  {
    var ws := UidWords(table);
    if |ws| == 0 then (UserRaised, users)
    else if IsDigits(ws[0]) then
      var (r, users') := LookupSpec(users, DigitsValue(ws[0]), passwd);
      match r
      case Resolved(name) => (UserName(name), users')
      case Raised(_) => (UserRaised, users)
    else (UserName("N/A"), users)
  }

  /** The user lookup of `get_process_details`, through the shared user cache. */
  method ResolveUser(table: map<string, string>, users: UserCache, passwd: PasswdFile) returns (u: UserField)
    modifies users
    ensures (u, users.names) == UserOf(table, old(users.names), passwd)
  {
    var uidWords := UidWords(table);
    if |uidWords| == 0 {
      return UserRaised;
    }
    if !IsDigits(uidWords[0]) {
      return UserName("N/A");
    }
    var who := users.Lookup(DigitsValue(uidWords[0]), passwd);
    if who.Raised? {
      return UserRaised;
    }
    return UserName(who.name);
  }

  /** The four values taken from `/proc/<pid>/stat`: utime, stime, nice and the start
      time in ticks after boot. */
  datatype StatFields = StatFields(utime: int, stime: int, nice: Option<int>, startTicks: Option<int>)

  datatype StatRead = StatRaised | StatRead(fields: StatFields)

  /** `int(stat_vals[i])`, `None` for the IndexError and ValueError cases. */
  function IntField(ws: seq<string>, i: nat): Option<int> {
    if i < |ws| then ParseInt(ws[i]) else None
  }

  /** The four fields are assigned one after another; the first that fails stops the
      assignments and the rest keep their defaults (0, 0, "N/A", "N/A"). A missing file
      keeps all defaults; a denied or failed read escapes. */
  function StatFieldsOf(stat: ReadOutcome): StatRead {
    match stat
    case NotFound => StatRead(StatFields(0, 0, None, None))
    case PermissionDenied => StatRaised
    case OtherError => StatRaised
    case Lines(lines) =>
      var ws := AllWords(lines);
      StatRead(
        match IntField(ws, 13)
        case None => StatFields(0, 0, None, None)
        case Some(u) =>
          match IntField(ws, 14)
          case None => StatFields(u, 0, None, None)
          case Some(s) =>
            match IntField(ws, 18)
            case None => StatFields(u, s, None, None)
            case Some(n) => StatFields(u, s, Some(n), IntField(ws, 21)))
  }

  /** A field read from stat holds the value of its word, and it is set only when the
      fields before it were: the start time implies the nice value, which implies that
      utime and stime were read. */
  lemma StatFieldsInOrder(lines: seq<string>)
    ensures var f := StatFieldsOf(Lines(lines)).fields;
      var ws := AllWords(lines);
      && (f.startTicks.Some? ==> f.nice.Some? && f.startTicks == IntField(ws, 21))
      && (f.nice.Some? ==> f.nice == IntField(ws, 18) && Some(f.utime) == IntField(ws, 13) && Some(f.stime) == IntField(ws, 14))
      && (IntField(ws, 13).None? ==> f == StatFields(0, 0, None, None))
  {
  }

  datatype BootRead = BootRaised | BootTime(seconds: int)

  /** The boot time: the second word of the first /proc/stat line starting with "btime";
      0 when the file is missing, there is no such line or the value is not an integer.
      A bare "btime" line or a denied read escapes. */
  function BootTimeOf(sysStat: ReadOutcome): BootRead {
    match sysStat
    case NotFound => BootTime(0)
    case PermissionDenied => BootRaised
    case OtherError => BootRaised
    case Lines(lines) =>
      match FirstStartingWith(lines, "btime")
      case None => BootTime(0)
      case Some(line) =>
        var ws := Words(line);
        if |ws| < 2 then BootRaised else BootTime(ParseInt(ws[1]).GetOr(0))
  }

  /** When the process started: an instant (seconds since the epoch, shown as a local
      date), seconds after boot when the boot time is unknown, or not available. */
  datatype StartTime = StartUnknown | StartedAt(epoch: real) | SinceBoot(seconds: real)

  /** The start time; `None` when reading the boot time escapes. /proc/stat is read only
      when the start ticks were read. */
  function StartTimeOf(startTicks: Option<int>, sysStat: ReadOutcome): (r: Option<StartTime>)
    ensures startTicks.None? ==> r == Some(StartUnknown)
    ensures r.Some? && startTicks.Some? ==> !r.value.StartUnknown?
  {
    match startTicks
    case None => Some(StartUnknown)
    case Some(ticks) =>
      match BootTimeOf(sysStat)
      case BootRaised => None
      case BootTime(boot) =>
        var seconds := ticks as real / ClockTicks as real;
        Some(if boot > 0 then StartedAt(boot as real + seconds) else SinceBoot(seconds))
  }

  /** Once the boot time is read, the start is an instant exactly when the boot time is
      positive, and that instant lies the process's seconds-after-boot past the boot. */
  lemma StartTimeAgrees(ticks: int, sysStat: ReadOutcome)
    requires BootTimeOf(sysStat).BootTime?
    ensures StartTimeOf(Some(ticks), sysStat).Some?
    ensures BootTimeOf(sysStat).seconds > 0 <==> StartTimeOf(Some(ticks), sysStat).value.StartedAt?
    ensures StartTimeOf(Some(ticks), sysStat).value.StartedAt? ==>
      StartTimeOf(Some(ticks), sysStat).value.epoch - BootTimeOf(sysStat).seconds as real == ticks as real / ClockTicks as real
  {
  }

  // ---------------------------------------------------------------------------------
  // Open descriptors (model_system.py)
  // ---------------------------------------------------------------------------------

  /** What the `is_dir`, `is_fifo`, `is_socket` and `is_symlink` probes of a descriptor
      target give, or the exception the first probe raises. */
  datatype Probe = Probe(isDir: bool, isFifo: bool, isSocket: bool, isSymlink: bool) | ProbeDenied | ProbeFailed

  /** What `os.readlink` of a descriptor gives. */
  datatype FdLink = LinkTarget(path: string, probe: Probe) | LinkVanished | LinkDenied | LinkFailed

  datatype FdEntry = FdEntry(fd: string, link: FdLink)

  /** `/proc/<pid>/fd`: not a directory, or the entries its listing yielded (a listing that
      fails part-way is the entries yielded before the failure). */
  datatype FdDir = FdNotDir | FdListing(entries: seq<FdEntry>)

  datatype OpenFile = OpenFile(fd: string, path: string, kind: string)

  datatype Classified = Kind(kind: string) | KindDenied | KindFailed

  /** The pseudo-paths the kernel shows for non-file descriptors. */
  predicate IsPseudoPath(path: string) {
    StartsWith(path, "socket:") || StartsWith(path, "pipe:") || StartsWith(path, "anon_inode:")
    || StartsWith(path, "/dev/") || path == "/"
  }

  /** The resource type of a descriptor target: by its text first, then by probing it. */
  function Classify(path: string, probe: Probe): Classified {
    if StartsWith(path, "socket:") then Kind("socket")
    else if StartsWith(path, "pipe:") then Kind("pipe")
    else if StartsWith(path, "anon_inode:") then Kind("inode anônimo")
    else if StartsWith(path, "/dev/") then Kind("dispositivo")
    else if path == "/" then Kind("diretório raiz")
    else
      match probe
      case ProbeDenied => KindDenied
      case ProbeFailed => KindFailed
      case Probe(isDir, isFifo, isSocket, isSymlink) =>
        if isDir then Kind("diretório")
        else if isFifo then Kind("FIFO (pipe nomeado)")
        else if isSocket then Kind("socket (filesystem)")
        else if isSymlink then Kind("link simbólico")
        else Kind("arquivo")
  }

  /** A pseudo-path is classified by its text alone and never probed; any other path is
      classified by the probe, an inaccessible one becoming a denied entry. */
  lemma ClassifyPseudoPaths(path: string, p: Probe, q: Probe)
    ensures IsPseudoPath(path) ==> Classify(path, p) == Classify(path, q) && Classify(path, p).Kind?
    ensures !IsPseudoPath(path) ==> (Classify(path, p).KindDenied? <==> p.ProbeDenied?)
  {
  }

  /** The row a descriptor gives, or none when it vanished before it was read. */
  function OpenFileOf(e: FdEntry): Option<OpenFile> {
    match e.link
    case LinkVanished => None
    case LinkDenied => Some(OpenFile(e.fd, "[Permissão Negada]", "Desconhecido"))
    case LinkFailed => Some(OpenFile(e.fd, "[Erro ao Ler]", "Desconhecido"))
    case LinkTarget(path, probe) =>
      match Classify(path, probe)
      case Kind(kind) => Some(OpenFile(e.fd, path, kind))
      case KindDenied => Some(OpenFile(e.fd, "[Permissão Negada]", "Desconhecido"))
      case KindFailed => Some(OpenFile(e.fd, "[Erro ao Ler]", "Desconhecido"))
  }

  /** The rows of the descriptors of a listing, in listing order. */
  function OpenFilesOf(entries: seq<FdEntry>): seq<OpenFile>
    decreases |entries|
  {
    if |entries| == 0 then []
    else
      var rows := OpenFilesOf(entries[..|entries| - 1]);
      match OpenFileOf(entries[|entries| - 1])
      case None => rows
      case Some(row) => rows + [row]
  }

  /** `get_process_open_files`: no rows when fd is not a directory. */
  function OpenFilesSpec(dir: FdDir): seq<OpenFile> {
    match dir
    case FdNotDir => []
    case FdListing(entries) => OpenFilesOf(entries)
  }

  /** Exactly the descriptors that did not vanish give a row, in listing order, under their
      own descriptor number. */
  lemma {:induction false} OpenFilesKeepOrder(entries: seq<FdEntry>)
    ensures |OpenFilesOf(entries)| <= |entries|
    ensures (forall i :: 0 <= i < |entries| ==> !entries[i].link.LinkVanished?) ==>
      |OpenFilesOf(entries)| == |entries| &&
      forall i :: 0 <= i < |entries| ==> OpenFilesOf(entries)[i].fd == entries[i].fd
    ensures (forall i :: 0 <= i < |entries| ==> entries[i].link.LinkVanished?) ==> OpenFilesOf(entries) == []
    decreases |entries|
  {
    if |entries| > 0 {
      var init := entries[..|entries| - 1];
      OpenFilesKeepOrder(init);
      if forall i :: 0 <= i < |entries| ==> !entries[i].link.LinkVanished? {
        assert forall i :: 0 <= i < |init| ==> !init[i].link.LinkVanished? by {
          forall i | 0 <= i < |init| ensures !init[i].link.LinkVanished? {
            assert init[i] == entries[i];
          }
        }
        var rows := OpenFilesOf(entries);
        forall i | 0 <= i < |entries| ensures rows[i].fd == entries[i].fd {
          if i < |init| {
            assert rows[i] == OpenFilesOf(init)[i];
            assert init[i] == entries[i];
          }
        }
      }
      if forall i :: 0 <= i < |entries| ==> entries[i].link.LinkVanished? {
        assert forall i :: 0 <= i < |init| ==> init[i].link.LinkVanished? by {
          forall i | 0 <= i < |init| ensures init[i].link.LinkVanished? {
            assert init[i] == entries[i];
          }
        }
      }
    }
  }

  /** The loop of `get_process_open_files`. */
  method ListOpenFiles(dir: FdDir) returns (rows: seq<OpenFile>)
    ensures rows == OpenFilesSpec(dir)
  {
    rows := [];
    if dir.FdNotDir? {
      return;
    }
    var entries := dir.entries;
    for i := 0 to |entries|
      invariant rows == OpenFilesOf(entries[..i])
    {
      assert entries[..i + 1][..i] == entries[..i];
      var row := OpenFileOf(entries[i]);
      if row.Some? {
        rows := rows + [row.value];
      }
    }
    assert entries[..|entries|] == entries;
  }

  // ---------------------------------------------------------------------------------
  // The detail record
  // ---------------------------------------------------------------------------------

  /** The detail view of one process. */
  datatype Details = Details(
    pid: int,
    name: string,
    user: string,
    state: string,
    threads: string,
    vmRss: string,
    vmSize: string,
    residentPages: int,
    virtualPages: int,
    codePages: int,
    dataPages: int,
    stackPages: int,
    rssShmem: string,
    vmData: string,
    cpuSeconds: real,
    started: StartTime,
    priority: string,
    nice: Option<int>,
    openFiles: Option<seq<OpenFile>>)   // only in the model_system.py variant

  /** What the files of one process hold when its details are read. */
  datatype DetailsInputs = DetailsInputs(
    procExists: bool,
    status: ReadOutcome,
    stat: ReadOutcome,
    sysStat: ReadOutcome,
    passwd: PasswdFile,
    fds: FdDir)

  /** The record built from a status table, the stat fields, the start time and, in
      model_system.py, the open descriptors. */
  function BuildDetails(pid: int, table: map<string, string>, user: string, f: StatFields,
                        started: StartTime, openFiles: Option<seq<OpenFile>>): Details
  {
    Details(
      pid,
      StatusField(table, "Name", "N/A"),
      user,
      StatusField(table, "State", "N/A"),
      StatusField(table, "Threads", "N/A"),
      StatusField(table, "VmRSS", "0 kB"),
      StatusField(table, "VmSize", "0 kB"),
      Pages(ParseKb(StatusField(table, "VmRSS", "0 kB"))),
      Pages(ParseKb(StatusField(table, "VmSize", "0 kB"))),
      Pages(ParseKb(StatusField(table, "VmExe", "0 kB"))),
      Pages(ParseKb(StatusField(table, "VmData", "0 kB"))),
      Pages(ParseKb(StatusField(table, "VmStk", "0 kB"))),
      StatusField(table, "RssShmem", "0 kB"),
      StatusField(table, "VmData", "0 kB"),
      (f.utime + f.stime) as real / ClockTicks as real,
      started,
      PriorityLabel(f.nice),
      f.nice,
      openFiles)
  }

  /** The descriptors the variant lists. */
  function OpenFilesOfVariant(v: Variant, fds: FdDir): Option<seq<OpenFile>> {
    if v == ModelSystemPy then Some(OpenFilesSpec(fds)) else None
  }

  /** `get_process_details(pid)`: the record, or `None` when the process is gone, its
      status file cannot be read, or an exception escapes; and the user cache afterwards. */
  function DetailsSpec(v: Variant, users: map<int, string>, pid: int, inp: DetailsInputs)
    : (Option<Details>, map<int, string>)
  {
    if !inp.procExists || !inp.status.Lines? then (None, users)
    else
      var table := StatusTable(inp.status.lines);
      match UserOf(table, users, inp.passwd)
      case (UserRaised, _) => (None, users)
      case (UserName(user), users') => (DetailsOfUser(v, pid, table, user, inp), users')
  }

  /** The rest of `get_process_details` once the user is known: stat, the boot time and,
      in model_system.py, the descriptors. */
  function DetailsOfUser(v: Variant, pid: int, table: map<string, string>, user: string, inp: DetailsInputs)
    : Option<Details>
  {
    match StatFieldsOf(inp.stat)
    case StatRaised => None
    case StatRead(f) =>
      match StartTimeOf(f.startTicks, inp.sysStat)
      case None => None
      case Some(started) => Some(BuildDetails(pid, table, user, f, started, OpenFilesOfVariant(v, inp.fds)))
  }

  /** The steps of `get_process_details` after the user lookup. */
  method ReadDetailsOfUser(v: Variant, pid: int, table: map<string, string>, user: string, inp: DetailsInputs)
    returns (d: Option<Details>)
    ensures d == DetailsOfUser(v, pid, table, user, inp)
  {
    var stat := StatFieldsOf(inp.stat);
    if stat.StatRaised? {
      return None;
    }
    var started := StartTimeOf(stat.fields.startTicks, inp.sysStat);
    if started.None? {
      return None;
    }
    var open: Option<seq<OpenFile>> := None;
    if v == ModelSystemPy {
      var rows := ListOpenFiles(inp.fds);
      open := Some(rows);
    }
    d := Some(BuildDetails(pid, table, user, stat.fields, started.value, open));
  }

  /** The two variants give the same record except that only model_system.py lists the
      open descriptors; they fail on the same inputs. */
  lemma DetailsVariantsAgree(users: map<int, string>, pid: int, inp: DetailsInputs)
    ensures var (a, ua) := DetailsSpec(ModelPy, users, pid, inp);
      var (b, ub) := DetailsSpec(ModelSystemPy, users, pid, inp);
      && ua == ub
      && a.Some? == b.Some?
      && (a.Some? ==> a.value.openFiles.None? && b.value.openFiles == Some(OpenFilesSpec(inp.fds))
                      && b.value.(openFiles := None) == a.value)
  {
  }

  /** The priority shown is "N/A" exactly when the nice value could not be read, and the
      shown nice value is the one read from stat. */
  lemma DetailsPriority(v: Variant, users: map<int, string>, pid: int, inp: DetailsInputs)
    requires DetailsSpec(v, users, pid, inp).0.Some?
    ensures var d := DetailsSpec(v, users, pid, inp).0.value;
      && d.nice == StatFieldsOf(inp.stat).fields.nice
      && (d.priority == "N/A" <==> d.nice.None?)
  {
  }

  /** A VmRSS value in the status file's own "N kB" form gives the number of whole pages
      in N kilobytes. */
  lemma ResidentPagesOfStatus(v: Variant, users: map<int, string>, pid: int, inp: DetailsInputs, n: nat)
    requires DetailsSpec(v, users, pid, inp).0.Some?
    requires StatusField(StatusTable(inp.status.lines), "VmRSS", "0 kB") == NatToString(n) + " kB"
    ensures var pages := DetailsSpec(v, users, pid, inp).0.value.residentPages;
      pages >= 0 && pages * 4 <= n < pages * 4 + 4
  {
    ParseKbOfStatusValue(n);
  }

  /** A status file without memory lines gives the "0 kB" defaults and zero pages. */
  lemma DetailsMemoryDefaults(v: Variant, users: map<int, string>, pid: int, inp: DetailsInputs)
    requires DetailsSpec(v, users, pid, inp).0.Some?
    requires var t := StatusTable(inp.status.lines);
      "VmRSS" !in t && "VmSize" !in t && "VmExe" !in t && "VmData" !in t && "VmStk" !in t
    ensures var d := DetailsSpec(v, users, pid, inp).0.value;
      && d.vmRss == "0 kB" && d.vmSize == "0 kB" && d.vmData == "0 kB"
      && d.residentPages == 0 && d.virtualPages == 0 && d.codePages == 0 && d.dataPages == 0 && d.stackPages == 0
  {
    ParseKbFallbacks();
  }

  /** A resolved numeric Uid is left in the user cache with the name shown. */
  lemma UserOfIsCached(table: map<string, string>, users: map<int, string>, passwd: PasswdFile)
    requires var ws := UidWords(table);
      |ws| > 0 && IsDigits(ws[0])
    requires UserOf(table, users, passwd).0.UserName?
    ensures var (u, users') := UserOf(table, users, passwd);
      var uid := DigitsValue(UidWords(table)[0]);
      uid in users' && users'[uid] == u.name
  {
    var uid := DigitsValue(UidWords(table)[0]);
    LookupIsMemoised(users, uid, passwd, passwd);
  }

  /** Only a digit-string first Uid word is looked up. Any other first word, including the
      "N/A" of a status file without a Uid line, shows "N/A" and leaves the user cache
      alone; a Uid value with no words raises IndexError, also without a lookup. */
  lemma UserOfWithoutDigits(table: map<string, string>, users: map<int, string>, passwd: PasswdFile)
    ensures |UidWords(table)| == 0 ==> UserOf(table, users, passwd) == (UserRaised, users)
    ensures |UidWords(table)| > 0 && !IsDigits(UidWords(table)[0]) ==>
      UserOf(table, users, passwd) == (UserName("N/A"), users)
    ensures "Uid" !in table ==> UserOf(table, users, passwd) == (UserName("N/A"), users)
  {
    if "Uid" !in table {
      var s := StatusField(table, "Uid", "N/A N/A N/A N/A");
      assert s[0] == 'N';
      FirstWordNotDigits(s);
    }
  }

  /** A string starting with a character that is neither blank nor a digit has a first
      word, and that word is not a digit string. */
  lemma FirstWordNotDigits(s: string)
    requires |s| > 0 && !IsSpace(s[0]) && !IsDigit(s[0])
    ensures |Words(s)| > 0 && !IsDigits(Words(s)[0])
  {
    var n := TokenLength(s);
    assert Words(s)[0] == s[..n];
  }

  /** A numeric Uid is resolved through the user cache, which remembers the answer. */
  lemma DetailsUserIsCached(v: Variant, users: map<int, string>, pid: int, inp: DetailsInputs)
    requires DetailsSpec(v, users, pid, inp).0.Some?
    requires var ws := UidWords(StatusTable(inp.status.lines));
      |ws| > 0 && IsDigits(ws[0])
    ensures var (d, users') := DetailsSpec(v, users, pid, inp);
      var uid := DigitsValue(UidWords(StatusTable(inp.status.lines))[0]);
      uid in users' && users'[uid] == d.value.user
  {
    UserOfIsCached(StatusTable(inp.status.lines), users, inp.passwd);
  }
}
