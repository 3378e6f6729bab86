/** The kernel files the collectors read, as values: what opening and reading a file
    gives, and one entry of the `/proc` directory with the per-pid files under it. */
module ProcFiles {
  import opened Wrappers
  import opened Text

  /** Outcome of opening and reading a text file; `Lines` holds its lines without the
      trailing newline. */
  datatype ReadOutcome =
    | NotFound                           // FileNotFoundError
    | PermissionDenied                   // PermissionError
    | OtherError                         // any other OSError
    | Lines(lines: seq<string>)

  /** `f.readline()`: the first line, or "" for an empty file. */
  function FirstLine(lines: seq<string>): string {
    if |lines| == 0 then "" else lines[0]
  }

  /** `f.read().split()`: the words of the whole file. */
  function AllWords(lines: seq<string>): seq<string>
    decreases |lines|
  {
    if |lines| == 0 then [] else AllWords(lines[..|lines| - 1]) + Words(lines[|lines| - 1])
  }

  /** The line a `for line in f: if line.startswith(p): ...; break` loop stops at: the
      first line with the prefix. */
  function FirstStartingWith(lines: seq<string>, p: string): (r: Option<string>)
    ensures r.Some? ==> StartsWith(r.value, p) && r.value in lines
    ensures r.Some? ==>
      exists i :: 0 <= i < |lines| && lines[i] == r.value && forall j :: 0 <= j < i ==> !StartsWith(lines[j], p)
    ensures r.None? ==> forall i :: 0 <= i < |lines| ==> !StartsWith(lines[i], p)
    decreases |lines|
  {
    if |lines| == 0 then None
    else if StartsWith(lines[0], p) then Some(lines[0])
    else
      var r := FirstStartingWith(lines[1..], p);
      assert r.Some? ==> exists i :: 0 <= i < |lines| && lines[i] == r.value && forall j :: 0 <= j < i ==> !StartsWith(lines[j], p) by {
        if r.Some? {
          var k :| 0 <= k < |lines[1..]| && lines[1..][k] == r.value && forall j :: 0 <= j < k ==> !StartsWith(lines[1..][j], p);
          assert lines[k + 1] == r.value;
          forall j | 0 <= j < k + 1 ensures !StartsWith(lines[j], p) {
            if j > 0 { assert lines[j] == lines[1..][j - 1]; }
          }
        }
      }
      r
  }

  /** One entry of `Path('/proc').iterdir()`, with what reading its per-process files gives. */
  datatype ProcEntry = ProcEntry(
    name: string,
    isDir: bool,
    stat: ReadOutcome,
    status: ReadOutcome,
    io: ReadOutcome)

  /** `proc_dir.is_dir() and proc_dir.name.isdigit()`. */
  predicate IsPidDir(e: ProcEntry) {
    e.isDir && IsDigits(e.name)
  }

  /** `int(pid_str)`. */
  function PidOf(e: ProcEntry): nat
    requires IsPidDir(e)
  {
    DigitsValue(e.name)
  }
}
