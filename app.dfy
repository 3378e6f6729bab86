/** app.py: one run of the page script. It takes a snapshot, fills in missing global
    figures, validates the requested number of processes and hands the limit to the
    controller. The rendering itself (view.py) is not part of this model; what the
    "how many processes" field returns is a parameter. */
module App {
  import opened Wrappers
  import opened Text
  import opened SystemMetrics
  import opened ProcessTable
  import opened Controller

  /** A figure of the global-info dict: `int` or `float`. */
  datatype Number = IntValue(i: int) | RealValue(r: real)

  /** The initial value of `num_processes_to_show`. */
  const InitialProcessCount: int := 10

  /** The collection interval the page starts the thread with, in seconds. */
  const PageInterval: int := 2

  /** The keys of the global-info dict, in the order model.py builds it. */
  const GlobalKeys: seq<string> := [
    "CPU (%)", "CPU ocioso (%)", "Memória Usada (KB)", "Memória (%)", "Memória Livre (%)",
    "Swap Total (KB)", "Swap Usada (KB)", "Swap Usada (%)", "Total de Processos",
    "Total de Threads", "Leitura Disco (B/s)", "Escrita Disco (B/s)"]

  /** The keys whose figures are integers. */
  const IntKeys: set<string> :=
    {"Memória Usada (KB)", "Swap Total (KB)", "Swap Usada (KB)", "Total de Processos", "Total de Threads"}

  const SwapKeys: set<string> := {"Swap Total (KB)", "Swap Usada (KB)", "Swap Usada (%)"}

  function DefaultValue(key: string): Number {
    if key in IntKeys then IntValue(0) else RealValue(0.0)
  }

  /** `default_global_info_keys`: every key, with a zero of its type. */
  const DefaultGlobalInfo: map<string, Number> := map k | k in GlobalKeys :: DefaultValue(k)

  /** The dict `get_global_info` returns; the swap keys are there only when the collector
      reports swap. */
  function AsDict(g: GlobalMetrics): map<string, Number> {
    var base := map[
      "CPU (%)" := RealValue(g.cpuPercent),
      "CPU ocioso (%)" := RealValue(g.cpuIdlePercent),
      "Memória Usada (KB)" := IntValue(g.memUsedKb),
      "Memória (%)" := RealValue(g.memPercent),
      "Memória Livre (%)" := RealValue(g.memFreePercent),
      "Total de Processos" := IntValue(g.processCount),
      "Total de Threads" := IntValue(g.threadCount),
      "Leitura Disco (B/s)" := RealValue(g.diskReadBps),
      "Escrita Disco (B/s)" := RealValue(g.diskWriteBps)];
    match g.swap
    case None => base
    case Some(s) =>
      base["Swap Total (KB)" := IntValue(s.totalKb)]["Swap Usada (KB)" := IntValue(s.usedKb)]
        ["Swap Usada (%)" := RealValue(s.usedPercent)]
  }

  /** The fallback of the page: an empty dict becomes the defaults; otherwise every missing
      key gets its default and every present key keeps its value. */
  function Merged(d: map<string, Number>): (r: map<string, Number>) {
    if d == map[] then DefaultGlobalInfo
    else map k | k in d.Keys + DefaultGlobalInfo.Keys :: if k in d then d[k] else DefaultGlobalInfo[k]
  }

  /** The page always shows every key, keeps what was collected and zeroes what was not. */
  lemma MergedMeaning(d: map<string, Number>)
    ensures forall k :: k in GlobalKeys ==> k in Merged(d)
    ensures forall k :: k in d ==> k in Merged(d) && Merged(d)[k] == d[k]
    ensures forall k :: k in Merged(d) && k !in d ==> Merged(d)[k] == DefaultValue(k)
    ensures d == map[] ==> Merged(d) == DefaultGlobalInfo
  {
  }

  /** The keys of a collected dict: all of them when swap is reported, all but the swap
      keys otherwise. */
  lemma AsDictKeys(g: GlobalMetrics)
    ensures g.swap.Some? ==> AsDict(g).Keys == DefaultGlobalInfo.Keys
    ensures g.swap.None? ==> AsDict(g).Keys == DefaultGlobalInfo.Keys - SwapKeys
  {
    KeySets();
    if g.swap.Some? {
      assert AsDict(g).Keys == BaseKeys + SwapKeys;
    } else {
      assert AsDict(g).Keys == BaseKeys;
    }
  }

  /** The keys present whether or not swap is reported. */
  const BaseKeys: set<string> := {
    "CPU (%)", "CPU ocioso (%)", "Memória Usada (KB)", "Memória (%)", "Memória Livre (%)",
    "Total de Processos", "Total de Threads", "Leitura Disco (B/s)", "Escrita Disco (B/s)"}

  /** The page's keys are the base keys and the swap keys, which are distinct. */
  lemma KeySets()
    ensures DefaultGlobalInfo.Keys == BaseKeys + SwapKeys
    ensures BaseKeys !! SwapKeys
  {
    KeysOfDefaults();
    KeysSplit();
    KeysApart();
  }

  lemma KeysOfDefaults()
    ensures DefaultGlobalInfo.Keys == set k | k in GlobalKeys
  {
  }

  lemma KeysSplit()
    ensures (set k | k in GlobalKeys) == BaseKeys + SwapKeys
  {
  }

  lemma KeysApart()
    ensures BaseKeys !! SwapKeys
  {
  }

  /** A dict from model.py already has every key, so the page shows it unchanged. */
  lemma CollectedDictIsComplete(g: GlobalMetrics)
    requires g.swap.Some?
    ensures Merged(AsDict(g)) == AsDict(g)
  {
    var d := AsDict(g);
    AsDictKeys(g);
    assert "CPU (%)" in d;
    MergedOfComplete(d);
  }

  /** A non-empty dict that already has every default key is left as it is. */
  lemma MergedOfComplete(d: map<string, Number>)
    requires d != map[] && DefaultGlobalInfo.Keys <= d.Keys
    ensures Merged(d) == d
  {
    var m := Merged(d);
    assert m.Keys == d.Keys;
  }

  /** The initial figures of `SystemData` are exactly the page's defaults. */
  lemma InitialInfoIsDefaults()
    ensures AsDict(InitialGlobalInfo) == DefaultGlobalInfo
  {
    var z := AsDict(InitialGlobalInfo);
    AsDictKeys(InitialGlobalInfo);
    forall k | k in z ensures z[k] == DefaultGlobalInfo[k] {
    }
  }

  /** The setdefault loop over the default keys. */
  method FillDefaults(d: map<string, Number>) returns (r: map<string, Number>)
    ensures r == Merged(d)
  {
    if d == map[] {
      return DefaultGlobalInfo;
    }
    r := d;
    for i := 0 to |GlobalKeys|
      invariant forall k :: k in r <==> k in d || k in GlobalKeys[..i]
      invariant forall k :: k in r ==> r[k] == if k in d then d[k] else DefaultValue(k)
    {
      var key := GlobalKeys[i];
      PrefixMembers(GlobalKeys, i);
      if key !in r {
        r := r[key := DefaultValue(key)];
      }
    }
    FilledIsMerged(d, r);
  }

  lemma PrefixMembers<T>(s: seq<T>, i: nat)
    requires i < |s|
    ensures forall x :: x in s[..i + 1] <==> x in s[..i] || x == s[i]
  {
    assert s[..i + 1] == s[..i] + [s[i]];
  }

  /** A dict holding the collected keys and every default key, each collected value kept
      and every other key at its default, is the merged dict. */
  lemma FilledIsMerged(d: map<string, Number>, r: map<string, Number>)
    requires d != map[]
    requires forall k :: k in r <==> k in d || k in GlobalKeys[..|GlobalKeys|]
    requires forall k :: k in r ==> r[k] == if k in d then d[k] else DefaultValue(k)
    ensures r == Merged(d)
  {
    KeysOfDefaults();
    assert GlobalKeys[..|GlobalKeys|] == GlobalKeys;
    assert r.Keys == Merged(d).Keys;
  }

  /** The limit the page settles on for the text `input`, and whether it warns. A
      number below 1 and text that is not a number both keep `current`. */
  function ValidateLimit(input: string, current: int): (int, bool) {
    match ParseInt(input)
    case Some(n) =>
      if n < 1 then (current, n != current) else (n, false)
    case None => (current, input != IntToString(current))
  }

  /** With a valid current limit: the new limit is at least 1; a number of at least 1 is
      taken without a warning; a smaller number or non-numeric text keeps the limit, and
      warns for any number and for any text but the current limit's own. */
  lemma ValidateLimitMeaning(input: string, current: int)
    requires current >= 1
    ensures var (n, warn) := ValidateLimit(input, current);
      && n >= 1
      && (n != current ==> ParseInt(input) == Some(n) && !warn)
      && (ParseInt(input).Some? && ParseInt(input).value >= 1 ==> n == ParseInt(input).value && !warn)
      && (ParseInt(input).Some? && ParseInt(input).value < 1 ==> n == current && warn)
      && (ParseInt(input).None? ==> n == current && (warn <==> input != IntToString(current)))
  {
  }

  /** The field echoes the current limit on every refresh: that never warns nor changes
      anything. */
  lemma ResubmittingKeepsQuiet(current: int)
    ensures ValidateLimit(IntToString(current), current) == (current, false)
  {
    ParseIntOfIntToString(current);
  }

  /** Surrounding blanks do not matter, as `int()` strips them. */
  lemma BlanksAreIgnored(n: int, current: int)
    ensures ValidateLimit(" " + IntToString(n) + "\n", current) == ValidateLimit(IntToString(n), current)
  {
    var s := IntToString(n);
    IntToStringUnpadded(n);
    PaddingStrips(s);
    StripUnpadded(s);
    ParseIntOfIntToString(n);
    assert ParseInt(" " + s + "\n") == Some(n);
  }

  /** A string that neither starts nor ends with a blank strips to itself when padded. */
  lemma PaddingStrips(s: string)
    requires |s| > 0 && !IsSpace(s[0]) && !IsSpace(s[|s| - 1])
    ensures Strip(" " + s + "\n") == s
  {
    var padded := " " + s + "\n";
    assert padded[1..] == s + "\n";
    assert TrimStart(padded, Whitespace) == s + "\n";
    assert (s + "\n")[..|s|] == s;
    assert TrimEnd(s + "\n", Whitespace) == TrimEnd(s, Whitespace);
    assert TrimEnd(s, Whitespace) == s;
  }

  /** The limit after the page has run once per input, starting from `current`. */
  function LimitAfter(current: int, inputs: seq<string>): int
    decreases |inputs|
  {
    if |inputs| == 0 then current else LimitAfter(ValidateLimit(inputs[0], current).0, inputs[1..])
  }

  /** Starting from 10, the limit stays at least 1 whatever is typed, run after run. */
  lemma {:induction false} LimitStaysPositive(current: int, inputs: seq<string>)
    requires current >= 1
    ensures LimitAfter(current, inputs) >= 1
    decreases |inputs|
  {
    if |inputs| > 0 {
      ValidateLimitMeaning(inputs[0], current);
      LimitStaysPositive(ValidateLimit(inputs[0], current).0, inputs[1..]);
    }
  }

  /** `st.session_state`: the number of processes to show, once set. */
  class Session {
    var processCount: Option<int>

    constructor ()
      ensures processCount == None
    {
      processCount := None;
    }
  }

  /** One run of the script. `input` is what the field returns after rendering; the
      outputs are the figures and rows handed to the view, whether a warning is shown and
      whether the page asks for a rerun. */
  method RunPage(session: Session, ctrl: ControllerState, input: string)
    returns (shown: map<string, Number>, rows: seq<ProcessRecord>, warn: bool, rerun: bool)
    modifies session, ctrl, ctrl.systemData`limit
    ensures var current := old(session.processCount).GetOr(InitialProcessCount);
      var (n, w) := ValidateLimit(input, current);
      && session.processCount == Some(n)
      && ctrl.systemData.limit == n
      && ctrl.thread == Start(old(ctrl.thread), PageInterval)
      && warn == w && rerun == (n != current)
    ensures shown == Merged(AsDict(old(ctrl.systemData.globalInfo))) && rows == old(ctrl.systemData.processes)
  {
    if session.processCount.None? {
      session.processCount := Some(InitialProcessCount);
    }
    var current := session.processCount.value;
    var info, procs := ctrl.systemData.GetSnapshot();
    shown := FillDefaults(AsDict(info));
    rows := procs;
    var n: int;
    var parsed := ParseInt(input);
    if parsed.Some? {
      n := parsed.value;
      warn := false;
      if n < 1 {
        warn := n != current;
        n := current;
      }
    } else {
      n := current;
      warn := input != IntToString(current);
    }
    rerun := n != current;
    session.processCount := Some(n);
    ctrl.StartBackgroundThread(PageInterval, n);
  }
}
