/** Identity cache: numeric user id -> user name, resolved against /etc/passwd and
    memoised per module (`_user_cache` in model.py and in model_system.py). */
module Identity {
  import opened Wrappers
  import opened Text

  /** What opening and reading /etc/passwd gives. */
  datatype PasswdFile =
    | PasswdMissing                      // FileNotFoundError: caught, the uid itself is the answer
    | PasswdDenied                       // PermissionError: propagates to the caller
    | PasswdUnreadable                   // any other error: propagates to the caller
    | PasswdLines(lines: seq<string>)

  /** Outcome of one lookup: a name, or the exception that escaped it. */
  datatype Lookup = Resolved(name: string) | Raised(denied: bool)

  /** The colon-separated fields of a passwd line, after `strip()`. */
  function Fields(line: string): seq<string> {
    SplitOn(Strip(line), ':')
  }

  /** The line has more than two fields and its third one parses to `uid`. */
  predicate Names(line: string, uid: int) {
    var f := Fields(line);
    |f| > 2 && ParseInt(f[2]) == Some(uid)
  }

  /** Index of the first line that names `uid`, or `|lines|` when none does. */
  function FirstNaming(lines: seq<string>, uid: int): (k: nat)
    ensures k <= |lines|
    ensures forall j :: 0 <= j < k ==> !Names(lines[j], uid)
    ensures k < |lines| ==> Names(lines[k], uid)
    decreases |lines|
  {
    if lines == [] then 0
    else if Names(lines[0], uid) then 0
    else 1 + FirstNaming(lines[1..], uid)
  }

  /** The user name the passwd scan finds for `uid`: the first field of the first naming line. */
  function FindUser(lines: seq<string>, uid: int): Option<string> {
    var k := FirstNaming(lines, uid);
    if k < |lines| then Some(Fields(lines[k])[0]) else None
  }

  /** The first naming line is unique: any line that names `uid` with no naming line
      before it is the one `FindUser` reports. */
  lemma FirstNamingUnique(lines: seq<string>, uid: int, i: nat)
    requires i < |lines| && Names(lines[i], uid)
    requires forall j :: 0 <= j < i ==> !Names(lines[j], uid)
    ensures FirstNaming(lines, uid) == i
    ensures FindUser(lines, uid) == Some(Fields(lines[i])[0])
  {
    var k := FirstNaming(lines, uid);
    assert k >= i by {
      if k < i {
        assert false;
      }
    }
  }

  /** `get_username_from_uid_local` as a function of the cache and the passwd file: the
      answer and the cache afterwards. A hit is returned as is; otherwise the answer is
      the name of the first naming line, or `str(uid)`, and it is cached. */
  function LookupSpec(cache: map<int, string>, uid: int, passwd: PasswdFile): (Lookup, map<int, string>) {
    if uid in cache then (Resolved(cache[uid]), cache)
    else
      match passwd
      case PasswdMissing => (Resolved(IntToString(uid)), cache[uid := IntToString(uid)])
      case PasswdDenied => (Raised(true), cache)
      case PasswdUnreadable => (Raised(false), cache)
      case PasswdLines(lines) =>
        var name := FindUser(lines, uid).GetOr(IntToString(uid));
        (Resolved(name), cache[uid := name])
  }

  /** Every answer is cached, and a second lookup of the same uid returns it again
      without touching the cache, whatever the passwd file says by then. */
  lemma LookupIsMemoised(cache: map<int, string>, uid: int, passwd: PasswdFile, later: PasswdFile)
    requires LookupSpec(cache, uid, passwd).0.Resolved?
    ensures var (r, cache') := LookupSpec(cache, uid, passwd);
      && uid in cache' && cache'[uid] == r.name
      && LookupSpec(cache', uid, later) == (r, cache')
  {
  }

  /** The cache only grows: existing entries are never changed or dropped. */
  lemma LookupOnlyAdds(cache: map<int, string>, uid: int, passwd: PasswdFile)
    ensures var cache' := LookupSpec(cache, uid, passwd).1;
      && cache.Keys <= cache'.Keys
      && cache'.Keys <= cache.Keys + {uid}
      && forall u :: u in cache ==> cache'[u] == cache[u]
  {
  }

  /** A miss answers with the uid's decimal form, which `int()` reads back as the uid. */
  lemma MissAnswersUidText(lines: seq<string>, uid: int)
    requires forall i :: 0 <= i < |lines| ==> !Names(lines[i], uid)
    ensures LookupSpec(map[], uid, PasswdLines(lines)).0 == Resolved(IntToString(uid))
    ensures ParseInt(LookupSpec(map[], uid, PasswdLines(lines)).0.name) == Some(uid)
  {
    ParseIntOfIntToString(uid);
  }

  /** The memo table of one module. */
  class UserCache {
    var names: map<int, string>

    constructor ()
      ensures names == map[]
    {
      names := map[];
    }

    /** Scans the passwd lines in order on a miss, stopping at the first naming line. */
    method Lookup(uid: int, passwd: PasswdFile) returns (r: Lookup)
      modifies this
      ensures (r, names) == LookupSpec(old(names), uid, passwd)
    {
      if uid in names {
        return Resolved(names[uid]);
      }
      match passwd {
        case PasswdMissing =>
          names := names[uid := IntToString(uid)];
          return Resolved(IntToString(uid));
        case PasswdDenied =>
          return Raised(true);
        case PasswdUnreadable =>
          return Raised(false);
        case PasswdLines(lines) =>
          var i := 0;
          while i < |lines|
            invariant 0 <= i <= |lines|
            invariant forall j :: 0 <= j < i ==> !Names(lines[j], uid)
            invariant names == old(names)
          {
            var parts := SplitOn(Strip(lines[i]), ':');
            if |parts| > 2 && ParseInt(parts[2]) == Some(uid) {
              FirstNamingUnique(lines, uid, i);
              names := names[uid := parts[0]];
              return Resolved(parts[0]);
            }
            i := i + 1;
          }
          names := names[uid := IntToString(uid)];
          return Resolved(IntToString(uid));
      }
    }
  }
}
