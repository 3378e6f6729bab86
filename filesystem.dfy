/** model_file.py: the partition table built from /proc/mounts and `statvfs`, and the
    listing of one directory with the type, size, permissions and owner of each entry. */
module Filesystem {
  import opened Wrappers
  import opened Text
  import opened ProcFiles
  import opened Identity
  import opened SystemMetrics

  // ---------------------------------------------------------------------------------
  // Partitions
  // ---------------------------------------------------------------------------------

  /** Pseudo and container file systems that are never shown. */
  const IgnoredFsTypes: seq<string> := [
    "sysfs", "proc", "devtmpfs", "tmpfs", "devpts", "debugfs",
    "securityfs", "fusectl", "cgroup", "overlay", "autofs",
    "mqueue", "hugetlbfs", "pstore", "rpc_pipefs", "binfmt_misc",
    "none", "configfs"]

  /** Mount points under these prefixes are never shown. */
  const IgnoredMountPrefixes: seq<string> := [
    "/sys", "/proc", "/dev", "/run", "/var/lib/docker", "/snap", "/etc/resolv.conf",
    "/etc/hostname", "/etc/hosts"]

  /** What the filter makes of one /proc/mounts line. */
  datatype MountLine =
    | SkipLine                                           // fewer than two fields, or filtered out
    | StopScan                                           // exactly two fields: the IndexError ends the scan
    | Candidate(device: string, mountPoint: string, fsType: string)

  function ClassifyMountLine(line: string): MountLine {
    var ws := Words(line);
    if |ws| < 2 then SkipLine
    else if |ws| < 3 then StopScan
    else
      var device := ws[0];
      var mountPoint := ws[1];
      var fsType := ws[2];
      if fsType in IgnoredFsTypes then SkipLine
      else if StartsWithAny(mountPoint, IgnoredMountPrefixes) then SkipLine
      else if !StartsWith(device, "/dev") && device !in ["rootfs", "tmpfs"] then
        if fsType == "tmpfs" && !StartsWithAny(mountPoint, ["/dev/shm", "/run/user"]) then
          Candidate(device, mountPoint, fsType)
        else SkipLine
      else Candidate(device, mountPoint, fsType)
  }

  /** The devices a candidate can have: the tmpfs exception for devices outside /dev is
      unreachable, because tmpfs mounts were already dropped by file system type. */
  lemma TmpfsExceptionUnreachable(line: string)
    requires ClassifyMountLine(line).Candidate?
    ensures var c := ClassifyMountLine(line);
      && (StartsWith(c.device, "/dev") || c.device == "rootfs" || c.device == "tmpfs")
      && c.fsType !in IgnoredFsTypes
      && !StartsWithAny(c.mountPoint, IgnoredMountPrefixes)
  {
    assert "tmpfs" == IgnoredFsTypes[3];
  }

  /** What `os.statvfs(mount_point)` gives; every error just skips the mount. */
  datatype Statvfs = StatvfsOk(blocks: nat, bavail: nat, frsize: nat) | StatvfsUnavailable

  datatype Partition = Partition(
    device: string,
    mountPoint: string,
    fsType: string,
    totalKb: real,
    usedKb: real,
    freeKb: real,
    usagePercent: real)

  /** The partition of a candidate mount, or none when statvfs fails or the size is 0. */
  function PartitionOf(device: string, mountPoint: string, fsType: string, sv: Statvfs): Option<Partition> {
    match sv
    case StatvfsUnavailable => None
    case StatvfsOk(blocks, bavail, frsize) =>
      var total := blocks * frsize;
      var free := bavail * frsize;
      var used := total - free;
      var totalKb := total as real / 1024.0;
      if totalKb <= 0.0 then None
      else
        Some(Partition(device, mountPoint, fsType, totalKb, used as real / 1024.0, free as real / 1024.0,
                       if total > 0 then used as real / total as real * 100.0 else 0.0))
  }

  /** What one mount line contributes: `None` when it ends the scan, otherwise the
      partitions it adds (none, or the one of a candidate whose statvfs gives a size). */
  function MountLineResult(line: string, statvfs: string -> Statvfs): Option<seq<Partition>> {
    match ClassifyMountLine(line)
    case StopScan => None
    case SkipLine => Some([])
    case Candidate(device, mountPoint, fsType) =>
      match PartitionOf(device, mountPoint, fsType, statvfs(mountPoint))
      case None => Some([])
      case Some(p) => Some([p])
  }

  /** The partitions of the mount lines from the first one on, stopping at a two-field line. */
  function PartitionsFrom(lines: seq<string>, statvfs: string -> Statvfs): seq<Partition>
    decreases |lines|
  {
    if |lines| == 0 then []
    else
      match MountLineResult(lines[0], statvfs)
      case None => []
      case Some(ps) => ps + PartitionsFrom(lines[1..], statvfs)
  }

  lemma PartitionsFromStep(lines: seq<string>, statvfs: string -> Statvfs)
    requires |lines| > 0
    ensures MountLineResult(lines[0], statvfs).None? ==> PartitionsFrom(lines, statvfs) == []
    ensures MountLineResult(lines[0], statvfs).Some? ==>
      PartitionsFrom(lines, statvfs) == MountLineResult(lines[0], statvfs).value + PartitionsFrom(lines[1..], statvfs)
  {
  }

  /** `PartitionsFromStep` for the suffixes of the mount table. */
  lemma PartitionsFromSuffix(lines: seq<string>, i: nat, statvfs: string -> Statvfs)
    requires i < |lines|
    ensures MountLineResult(lines[i], statvfs).None? ==> PartitionsFrom(lines[i..], statvfs) == []
    ensures MountLineResult(lines[i], statvfs).Some? ==>
      PartitionsFrom(lines[i..], statvfs) == MountLineResult(lines[i], statvfs).value + PartitionsFrom(lines[i + 1..], statvfs)
  {
    PartitionsFromStep(lines[i..], statvfs);
    assert lines[i..][0] == lines[i] && lines[i..][1..] == lines[i + 1..];
  }

  lemma AppendAssoc<T>(a: seq<T>, b: seq<T>, c: seq<T>)
    ensures a + b + c == a + (b + c)
  {
  }

  /** `get_filesystem_info()`: no partitions when /proc/mounts cannot be read. */
  datatype FilesystemInfo = FilesystemInfo(partitions: seq<Partition>, lastUpdate: real)

  function FilesystemSpec(mounts: ReadOutcome, statvfs: string -> Statvfs, now: real): FilesystemInfo {
    FilesystemInfo(if mounts.Lines? then PartitionsFrom(mounts.lines, statvfs) else [], now)
  }

  /** What every listed partition satisfies. */
  predicate Shown(p: Partition) {
    && p.fsType !in IgnoredFsTypes
    && !StartsWithAny(p.mountPoint, IgnoredMountPrefixes)
    && (StartsWith(p.device, "/dev") || p.device == "rootfs" || p.device == "tmpfs")
    && p.totalKb > 0.0
    && p.usedKb + p.freeKb == p.totalKb
    && p.usagePercent == p.usedKb / p.totalKb * 100.0
  }

  lemma PartitionOfShown(line: string, sv: Statvfs)
    requires ClassifyMountLine(line).Candidate?
    ensures var c := ClassifyMountLine(line);
      var p := PartitionOf(c.device, c.mountPoint, c.fsType, sv);
      p.Some? ==> Shown(p.value) && p.value.device == c.device && p.value.mountPoint == c.mountPoint
  {
    TmpfsExceptionUnreachable(line);
    var c := ClassifyMountLine(line);
    if sv.StatvfsOk? {
      var total := sv.blocks * sv.frsize;
      var free := sv.bavail * sv.frsize;
      var used := total - free;
      if total > 0 {
        assert used as real / 1024.0 + free as real / 1024.0 == total as real / 1024.0;
        assert used as real / total as real * 100.0 == (used as real / 1024.0) / (total as real / 1024.0) * 100.0;
      }
    }
  }

  /** Every listed partition passed the filters, has a positive size whose used and free
      parts add up to it, and shows the used share of it; and it was statted at its own
      mount point. */
  lemma {:induction false} PartitionsAreShown(lines: seq<string>, statvfs: string -> Statvfs)
    ensures forall i :: 0 <= i < |PartitionsFrom(lines, statvfs)| ==> Shown(PartitionsFrom(lines, statvfs)[i])
    ensures |PartitionsFrom(lines, statvfs)| <= |lines|
    decreases |lines|
  {
    if |lines| > 0 {
      PartitionsAreShown(lines[1..], statvfs);
      if ClassifyMountLine(lines[0]).Candidate? {
        var c := ClassifyMountLine(lines[0]);
        PartitionOfShown(lines[0], statvfs(c.mountPoint));
      }
    }
  }

  /** With at most the available blocks free (`f_bavail <= f_blocks`), usage lies
      between 0 and 100. */
  lemma UsageBounded(device: string, mountPoint: string, fsType: string, blocks: nat, bavail: nat, frsize: nat)
    requires bavail <= blocks
    requires PartitionOf(device, mountPoint, fsType, StatvfsOk(blocks, bavail, frsize)).Some?
    ensures var p := PartitionOf(device, mountPoint, fsType, StatvfsOk(blocks, bavail, frsize)).value;
      0.0 <= p.usagePercent <= 100.0
  {
    var total := blocks * frsize;
    var free := bavail * frsize;
    MulMonotone(bavail, blocks, frsize);
    var p := PartitionOf(device, mountPoint, fsType, StatvfsOk(blocks, bavail, frsize)).value;
    assert total > 0;
    RatioInUnit((total - free) as real, total as real);
    assert p.usagePercent == (total - free) as real / total as real * 100.0;
  }

  lemma MulMonotone(a: nat, b: nat, c: nat)
    requires a <= b
    ensures a * c <= b * c
  {
  }

  lemma RatioInUnit(x: real, y: real)
    requires 0.0 <= x <= y && y > 0.0
    ensures 0.0 <= x / y <= 1.0
  {
    assert x / y * y == x;
  }

  /** A two-field line ends the scan: nothing after it is listed. */
  lemma {:induction false} StopLineEndsScan(before: seq<string>, line: string, after: seq<string>, statvfs: string -> Statvfs)
    requires ClassifyMountLine(line).StopScan?
    ensures PartitionsFrom(before + [line] + after, statvfs) == PartitionsFrom(before + [line], statvfs)
    decreases |before|
  {
    if |before| > 0 {
      assert (before + [line] + after)[1..] == before[1..] + [line] + after;
      assert (before + [line])[1..] == before[1..] + [line];
      StopLineEndsScan(before[1..], line, after, statvfs);
    } else {
      assert before + [line] + after == [line] + after;
      assert before + [line] == [line];
    }
  }

  /** A line that yields no partition without ending the scan (a filtered mount, a
      failing `statvfs`, an empty size) drops out and changes nothing else. */
  lemma {:induction false} SkippedLineIsDropped(before: seq<string>, line: string, after: seq<string>, statvfs: string -> Statvfs)
    requires !ClassifyMountLine(line).StopScan?
    requires ClassifyMountLine(line).Candidate? ==>
      var c := ClassifyMountLine(line);
      PartitionOf(c.device, c.mountPoint, c.fsType, statvfs(c.mountPoint)).None?
    ensures PartitionsFrom(before + [line] + after, statvfs) == PartitionsFrom(before + after, statvfs)
    decreases |before|
  {
    if |before| > 0 {
      assert (before + [line] + after)[1..] == before[1..] + [line] + after;
      assert (before + after)[1..] == before[1..] + after;
      SkippedLineIsDropped(before[1..], line, after, statvfs);
    } else {
      assert before + [line] + after == [line] + after;
      assert ([line] + after)[1..] == after;
      assert before + after == after;
    }
  }

  /** One iteration of the mount loop: the filters, then `statvfs` for a candidate. */
  method ReadMountLine(line: string, statvfs: string -> Statvfs) returns (added: Option<seq<Partition>>)
    ensures added == MountLineResult(line, statvfs)
  {
    match ClassifyMountLine(line) {
      case StopScan =>
        added := None;
      case SkipLine =>
        added := Some([]);
      case Candidate(device, mountPoint, fsType) =>
        var p := PartitionOf(device, mountPoint, fsType, statvfs(mountPoint));
        added := if p.Some? then Some([p.value]) else Some([]);
    }
  }

  /** The loop of `get_filesystem_info`. */
  method GetFilesystemInfo(mounts: ReadOutcome, statvfs: string -> Statvfs, now: real) returns (info: FilesystemInfo)
    ensures info == FilesystemSpec(mounts, statvfs, now)
  {
    var partitions: seq<Partition> := [];
    if mounts.Lines? {
      var lines := mounts.lines;
      var i := 0;
      while i < |lines|
        invariant 0 <= i <= |lines|
        invariant partitions + PartitionsFrom(lines[i..], statvfs) == PartitionsFrom(lines, statvfs)
      {
        var added := ReadMountLine(lines[i], statvfs);
        PartitionsFromSuffix(lines, i, statvfs);
        if added.None? {
          break;
        }
        AppendAssoc(partitions, added.value, PartitionsFrom(lines[i + 1..], statvfs));
        partitions := partitions + added.value;
        i := i + 1;
      }
      if i == |lines| {
        assert lines[i..] == [];
      }
    }
    info := FilesystemInfo(partitions, now);
  }

  // ---------------------------------------------------------------------------------
  // File modes
  // ---------------------------------------------------------------------------------

  const S_IFMT: bv32 := 0xF000
  const S_IFDIR: bv32 := 0x4000
  const S_IFREG: bv32 := 0x8000
  const S_IFLNK: bv32 := 0xA000
  const S_IFCHR: bv32 := 0x2000
  const S_IFBLK: bv32 := 0x6000
  const S_IFIFO: bv32 := 0x1000
  const S_IFSOCK: bv32 := 0xC000

  /** The type shown for an entry, from its `st_mode`. */
  function TypeLabel(mode: bv32): string {
    var t := mode & S_IFMT;
    if t == S_IFDIR then "Diretório"
    else if t == S_IFREG then "Arquivo"
    else if t == S_IFLNK then "Link Simbólico"
    else if t == S_IFCHR then "Dispositivo de Caractere"
    else if t == S_IFBLK then "Dispositivo de Bloco"
    else if t == S_IFIFO then "FIFO (Pipe Nomeado)"
    else if t == S_IFSOCK then "Socket"
    else "Desconhecido"
  }

  /** The first character of `stat.filemode`. */
  function TypeChar(mode: bv32): char {
    var t := mode & S_IFMT;
    if t == S_IFREG then '-'
    else if t == S_IFDIR then 'd'
    else if t == S_IFLNK then 'l'
    else if t == S_IFBLK then 'b'
    else if t == S_IFCHR then 'c'
    else if t == S_IFIFO then 'p'
    else if t == S_IFSOCK then 's'
    else '?'
  }

  function Bit(mode: bv32, b: bv32, c: char): char {
    if mode & b != 0 then c else '-'
  }

  /** An execute position: `x`, or the special bit's letter (lower case when the execute
      bit is also set). */
  function ExecChar(mode: bv32, x: bv32, special: bv32, lower: char, upper: char): char {
    if mode & special != 0 then (if mode & x != 0 then lower else upper)
    else if mode & x != 0 then 'x' else '-'
  }

  /** The three characters of one class of users: read, write and execute. */
  function Triad(mode: bv32, r: bv32, w: bv32, x: bv32, special: bv32, lower: char, upper: char): (t: string)
    ensures |t| == 3
  {
    [Bit(mode, r, 'r'), Bit(mode, w, 'w'), ExecChar(mode, x, special, lower, upper)]
  }

  function UserTriad(mode: bv32): string { Triad(mode, 0x100, 0x80, 0x40, 0x800, 's', 'S') }
  function GroupTriad(mode: bv32): string { Triad(mode, 0x20, 0x10, 0x8, 0x400, 's', 'S') }
  function OtherTriad(mode: bv32): string { Triad(mode, 0x4, 0x2, 0x1, 0x200, 't', 'T') }

  /** `stat.filemode(mode)`, e.g. "drwxr-xr-x". */
  function Filemode(mode: bv32): (s: string)
    ensures |s| == 10
  {
    [TypeChar(mode)] + UserTriad(mode) + GroupTriad(mode) + OtherTriad(mode)
  }

  function IfChar(c: bool, b: bv32): bv32 {
    if c then b else 0
  }

  /** The bits one triad of a mode string spells. */
  function TriadBits(t: string, r: bv32, w: bv32, x: bv32, special: bv32, lower: char, upper: char): bv32
    requires |t| == 3
  {
    IfChar(t[0] == 'r', r) | IfChar(t[1] == 'w', w)
    | IfChar(t[2] == 'x' || t[2] == lower, x) | IfChar(t[2] == lower || t[2] == upper, special)
  }

  /** The permission and special bits a mode string spells. */
  function ModeBitsOf(s: string): bv32
    requires |s| == 10
  {
    TriadBits(s[1..4], 0x100, 0x80, 0x40, 0x800, 's', 'S')
    | TriadBits(s[4..7], 0x20, 0x10, 0x8, 0x400, 's', 'S')
    | TriadBits(s[7..10], 0x4, 0x2, 0x1, 0x200, 't', 'T')
  }

  /** The type label a mode-string type character stands for. */
  function LabelOfTypeChar(c: char): string {
    match c
    case '-' => "Arquivo"
    case 'd' => "Diretório"
    case 'l' => "Link Simbólico"
    case 'b' => "Dispositivo de Bloco"
    case 'c' => "Dispositivo de Caractere"
    case 'p' => "FIFO (Pipe Nomeado)"
    case 's' => "Socket"
    case _ => "Desconhecido"
  }

  lemma UserTriadBits(mode: bv32)
    ensures TriadBits(UserTriad(mode), 0x100, 0x80, 0x40, 0x800, 's', 'S') == mode & 0x9C0
  {
  }

  lemma GroupTriadBits(mode: bv32)
    ensures TriadBits(GroupTriad(mode), 0x20, 0x10, 0x8, 0x400, 's', 'S') == mode & 0x438
  {
  }

  lemma OtherTriadBits(mode: bv32)
    ensures TriadBits(OtherTriad(mode), 0x4, 0x2, 0x1, 0x200, 't', 'T') == mode & 0x207
  {
  }

  lemma SplitPermissionBits(mode: bv32)
    ensures mode & 0xFFF == (mode & 0x9C0) | (mode & 0x438) | (mode & 0x207)
  {
  }

  /** The mode string loses nothing: it spells every permission and special bit, and its
      type character names the same type as the type label. */
  lemma FilemodeRoundTrip(mode: bv32)
    ensures ModeBitsOf(Filemode(mode)) == mode & 0xFFF
    ensures LabelOfTypeChar(Filemode(mode)[0]) == TypeLabel(mode)
  {
    var s := Filemode(mode);
    var u, g, o := UserTriad(mode), GroupTriad(mode), OtherTriad(mode);
    assert s == [TypeChar(mode)] + u + g + o;
    assert s[1..4] == UserTriad(mode);
    assert s[4..7] == GroupTriad(mode);
    assert s[7..10] == OtherTriad(mode);
    UserTriadBits(mode);
    GroupTriadBits(mode);
    OtherTriadBits(mode);
    SplitPermissionBits(mode);
  }

  /** `oct(n)`'s digits. */
  function OctalDigits(n: nat): string
    decreases n
  {
    if n < 8 then [('0' as int + n) as char] else OctalDigits(n / 8) + [('0' as int + n % 8) as char]
  }

  function OctalValue(s: string): int
    decreases |s|
  {
    if |s| == 0 then 0 else 8 * OctalValue(s[..|s| - 1]) + (s[|s| - 1] as int - '0' as int)
  }

  /** `oct(mode & 0o777)`. */
  function PermissionsOctal(mode: bv32): string {
    "0o" + OctalDigits((mode & 0x1FF) as nat)
  }

  lemma {:induction false} OctalRoundTrip(n: nat)
    ensures OctalValue(OctalDigits(n)) == n
    ensures 0 < |OctalDigits(n)| && forall i :: 0 <= i < |OctalDigits(n)| ==> '0' <= OctalDigits(n)[i] <= '7'
    decreases n
  {
    if n >= 8 {
      OctalRoundTrip(n / 8);
      var s := OctalDigits(n);
      assert s[..|s| - 1] == OctalDigits(n / 8);
    }
  }

  /** The octal permissions are at most three digits and read back as the nine
      permission bits. */
  lemma PermissionsOctalMeaning(mode: bv32)
    ensures var s := PermissionsOctal(mode);
      && 3 <= |s| <= 5 && s[..2] == "0o"
      && OctalValue(s[2..]) == (mode & 0x1FF) as int
  {
    var n := (mode & 0x1FF) as nat;
    OctalRoundTrip(n);
    var s := PermissionsOctal(mode);
    assert s[2..] == OctalDigits(n);
    assert n < 512;
    if n >= 8 {
      if n / 8 >= 8 {
        assert |OctalDigits(n / 8 / 8)| == 1;
      }
    }
  }

  // ---------------------------------------------------------------------------------
  // Directory listing
  // ---------------------------------------------------------------------------------

  /** What `item_path.stat()` gives: it follows symbolic links. */
  datatype ItemStat = StatOk(mode: bv32, size: int, mtime: real, uid: int) | StatMissing | StatDenied | StatFailed

  datatype DirItem = DirItem(name: string, stat: ItemStat)

  /** The directory: not a directory (or missing), a listing error, or its entries. */
  datatype DirListing = DirNotDir | DirListDenied | DirListFailed | DirItems(items: seq<DirItem>)

  datatype Size = SizeNA | Bytes(n: int)

  /** One row of the listing; "N/A" and `None` mark what could not be read. The
      modification time is kept as seconds since the epoch. */
  datatype EntryInfo = EntryInfo(
    name: string,
    kind: string,
    size: Size,
    permissionsOctal: string,
    permissions: string,
    modified: Option<real>,
    owner: string,
    fullPath: string)

  /** `str(Path(dir) / name)` for a directory path without redundant separators. */
  function JoinPath(dir: string, name: string): string {
    if |dir| > 0 && dir[|dir| - 1] == '/' then dir + name else dir + "/" + name
  }

  /** The row of one entry and the user cache afterwards. A stat failure or a failing
      owner lookup leaves every field "N/A" except the type, which names the failure. */
  function EntryInfoOf(dir: string, item: DirItem, users: map<int, string>, passwd: PasswdFile)
    : (r: (EntryInfo, map<int, string>))
    ensures r.0.name == item.name && r.0.fullPath == JoinPath(dir, item.name)
    ensures r.0.size.Bytes? ==> r.0.kind == "Arquivo"
    ensures item.stat.StatOk? && r.0.kind !in ["N/A (Permissão Negada)", "N/A (Erro)"] ==> r.0.kind == TypeLabel(item.stat.mode)
  {
    var blank := EntryInfo(item.name, "N/A", SizeNA, "N/A", "N/A", None, "N/A", JoinPath(dir, item.name));
    match item.stat
    case StatMissing => (blank.(kind := "N/A (Não Encontrado)"), users)
    case StatDenied => (blank.(kind := "N/A (Permissão Negada)"), users)
    case StatFailed => (blank.(kind := "N/A (Erro)"), users)
    case StatOk(mode, size, mtime, uid) =>
      match LookupSpec(users, uid, passwd)
      case (Raised(denied), _) => (blank.(kind := if denied then "N/A (Permissão Negada)" else "N/A (Erro)"), users)
      case (Resolved(owner), users') =>
        var kind := TypeLabel(mode);
        (EntryInfo(item.name, kind, if kind == "Arquivo" then Bytes(size) else SizeNA,
                   PermissionsOctal(mode), Filemode(mode), Some(mtime), owner, JoinPath(dir, item.name)),
         users')
  }

  /** The rows of the entries, in listing order, threading the user cache. */
  function EntriesOf(dir: string, items: seq<DirItem>, users: map<int, string>, passwd: PasswdFile)
    : (r: (seq<EntryInfo>, map<int, string>))
    ensures |r.0| == |items|
    decreases |items|
  {
    if |items| == 0 then ([], users)
    else
      var (rows, users1) := EntriesOf(dir, items[..|items| - 1], users, passwd);
      var (row, users2) := EntryInfoOf(dir, items[|items| - 1], users1, passwd);
      (rows + [row], users2)
  }

  /** The rows of a non-empty listing are those of all but the last entry, then the last
      entry's row under the cache those left. */
  lemma EntriesOfStep(dir: string, items: seq<DirItem>, users: map<int, string>, passwd: PasswdFile)
    requires |items| > 0
    ensures var before := EntriesOf(dir, items[..|items| - 1], users, passwd);
      var last := EntryInfoOf(dir, items[|items| - 1], before.1, passwd);
      EntriesOf(dir, items, users, passwd) == (before.0 + [last.0], last.1)
  {
  }

  /** `EntriesOfStep` for the prefixes of a listing. */
  lemma EntriesOfPrefix(dir: string, items: seq<DirItem>, i: nat, users: map<int, string>, passwd: PasswdFile)
    requires i < |items|
    ensures var before := EntriesOf(dir, items[..i], users, passwd);
      var last := EntryInfoOf(dir, items[i], before.1, passwd);
      EntriesOf(dir, items[..i + 1], users, passwd) == (before.0 + [last.0], last.1)
  {
    EntriesOfStep(dir, items[..i + 1], users, passwd);
    assert items[..i + 1][..i] == items[..i] && items[..i + 1][i] == items[i];
  }

  /** `get_directory_contents(path)`: no rows when the path is not a directory or cannot
      be listed. */
  function DirectorySpec(dir: string, listing: DirListing, users: map<int, string>, passwd: PasswdFile)
    : (seq<EntryInfo>, map<int, string>)
  {
    match listing
    case DirItems(items) => EntriesOf(dir, items, users, passwd)
    case _ => ([], users)
  }

  /** An entry whose `stat()` fails still gets its row: the type names the failure and
      every other attribute stays "N/A"; the user cache is not consulted. */
  lemma StatFailureRow(dir: string, item: DirItem, users: map<int, string>, passwd: PasswdFile)
    requires !item.stat.StatOk?
    ensures var (row, users') := EntryInfoOf(dir, item, users, passwd);
      && users' == users
      && row.kind == (if item.stat.StatMissing? then "N/A (Não Encontrado)"
                      else if item.stat.StatDenied? then "N/A (Permissão Negada)" else "N/A (Erro)")
      && row.size == SizeNA && row.permissionsOctal == "N/A" && row.permissions == "N/A"
      && row.modified == None && row.owner == "N/A"
  {
  }

  /** One row per entry, in order, under its own name and full path; a size only for
      regular files. */
  lemma {:induction false} EntriesMatchItems(dir: string, items: seq<DirItem>, users: map<int, string>, passwd: PasswdFile)
    ensures var rows := EntriesOf(dir, items, users, passwd).0;
      && |rows| == |items|
      && forall i :: 0 <= i < |items| ==>
           && rows[i].name == items[i].name
           && rows[i].fullPath == JoinPath(dir, items[i].name)
           && (rows[i].size.Bytes? ==> rows[i].kind == "Arquivo")
    decreases |items|
  {
    if |items| > 0 {
      var init := items[..|items| - 1];
      EntriesMatchItems(dir, init, users, passwd);
      var r0 := EntriesOf(dir, init, users, passwd);
      var last := EntryInfoOf(dir, items[|items| - 1], r0.1, passwd).0;
      var rows := EntriesOf(dir, items, users, passwd).0;
      EntriesOfStep(dir, items, users, passwd);
      forall i | 0 <= i < |init|
        ensures rows[i].name == items[i].name && rows[i].fullPath == JoinPath(dir, items[i].name)
        ensures rows[i].size.Bytes? ==> rows[i].kind == "Arquivo"
      {
        assert rows[i] == r0.0[i] && items[i] == init[i];
      }
    }
  }

  /** `stat()` follows links, so it never reports a symbolic link: the "Link Simbólico"
      type is never shown. */
  lemma {:induction false} SymlinkTypeUnreachable(dir: string, items: seq<DirItem>, users: map<int, string>, passwd: PasswdFile)
    requires forall item :: item in items && item.stat.StatOk? ==> item.stat.mode & S_IFMT != S_IFLNK
    ensures forall row :: row in EntriesOf(dir, items, users, passwd).0 ==> row.kind != "Link Simbólico"
    decreases |items|
  {
    if |items| > 0 {
      var init := items[..|items| - 1];
      assert forall item :: item in init ==> item in items;
      SymlinkTypeUnreachable(dir, init, users, passwd);
      var r0 := EntriesOf(dir, init, users, passwd);
      EntriesOfStep(dir, items, users, passwd);
      EntryNeverLink(dir, items[|items| - 1], r0.1, passwd);
    }
  }

  /** An entry whose mode is not a link's gets no link row. */
  lemma EntryNeverLink(dir: string, item: DirItem, users: map<int, string>, passwd: PasswdFile)
    requires item.stat.StatOk? ==> item.stat.mode & S_IFMT != S_IFLNK
    ensures EntryInfoOf(dir, item, users, passwd).0.kind != "Link Simbólico"
  {
  }

  /** The body of the listing loop for one entry. */
  method ReadEntry(dir: string, item: DirItem, users: UserCache, passwd: PasswdFile) returns (info: EntryInfo)
    modifies users
    ensures (info, users.names) == EntryInfoOf(dir, item, old(users.names), passwd)
  {
    info := EntryInfo(item.name, "N/A", SizeNA, "N/A", "N/A", None, "N/A", JoinPath(dir, item.name));
    match item.stat {
      case StatMissing => info := info.(kind := "N/A (Não Encontrado)");
      case StatDenied => info := info.(kind := "N/A (Permissão Negada)");
      case StatFailed => info := info.(kind := "N/A (Erro)");
      case StatOk(mode, size, mtime, uid) =>
        var kind := TypeLabel(mode);
        var owner := users.Lookup(uid, passwd);
        if owner.Raised? {
          info := info.(kind := if owner.denied then "N/A (Permissão Negada)" else "N/A (Erro)");
        } else {
          info := info.(kind := kind, size := if kind == "Arquivo" then Bytes(size) else SizeNA,
                        permissionsOctal := PermissionsOctal(mode), permissions := Filemode(mode),
                        modified := Some(mtime), owner := owner.name);
        }
    }
  }

  /** The listing loop; the owner lookups share the collector's user cache. */
  method GetDirectoryContents(dir: string, listing: DirListing, users: UserCache, passwd: PasswdFile)
    returns (contents: seq<EntryInfo>)
    modifies users
    ensures (contents, users.names) == DirectorySpec(dir, listing, old(users.names), passwd)
  {
    if !listing.DirItems? {
      return [];
    }
    contents := ReadEntries(dir, listing.items, users, passwd);
  }

  /** The loop over the directory's entries, one row per entry. */
  method ReadEntries(dir: string, items: seq<DirItem>, users: UserCache, passwd: PasswdFile)
    returns (contents: seq<EntryInfo>)
    modifies users
    ensures (contents, users.names) == EntriesOf(dir, items, old(users.names), passwd)
  {
    contents := [];
    ghost var names0 := users.names;
    for i := 0 to |items|
      invariant contents == EntriesOf(dir, items[..i], names0, passwd).0
      invariant users.names == EntriesOf(dir, items[..i], names0, passwd).1
    {
      EntriesOfPrefix(dir, items, i, names0, passwd);
      var info := ReadEntry(dir, items[i], users, passwd);
      contents := contents + [info];
    }
    assert items[..|items|] == items;
  }
}
