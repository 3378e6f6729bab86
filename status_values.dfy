/** The pure value conversions of the process-details view: the "N kB" status values,
    the memory page counts and the nice -> priority label table. */
module StatusValues {
  import opened Wrappers
  import opened Text

  /** Clock ticks per second (`CLK_TCK`). */
  const ClockTicks: int := 100
  /** Bytes per memory page (`PAGE_SIZE`). */
  const PageSize: int := 4096

  /** Python `int(x)` of the exact quotient `a / b` (b > 0): truncation toward zero. */
  function TruncDiv(a: int, b: int): int
    requires b > 0
  {
    if a >= 0 then a / b else -((-a) / b)
  }

  /** `_parse_kb_value_from_status_line`: the number in a status value such as "123 kB".
      A value without "kb" (in any case) or whose number does not parse gives 0. */
  function ParseKb(s: string): int {
    var lower := ToLower(s);
    if Contains(lower, "kb") then ParseInt(RemoveAll(lower, "kb")).GetOr(0) else 0
  }

  /** `int(kb * 1024 / PAGE_SIZE)`: the number of whole pages in `kb` kilobytes. */
  function Pages(kb: int): (pages: int)
    ensures 0 <= kb ==> 0 <= pages && pages * 4 <= kb < pages * 4 + 4
    ensures kb < 0 ==> pages <= 0 && -pages * 4 <= -kb < -pages * 4 + 4
  {
    TruncDiv(kb * 1024, PageSize)
  }

  /** The page count truncates toward zero, so it is odd in `kb`. */
  lemma PagesIsOdd(kb: int)
    ensures Pages(-kb) == -Pages(kb)
  {
  }

  /** `_translate_priority_from_nice`; `None` stands for a nice value that is not an int. */
  function PriorityLabel(nice: Option<int>): (priority: string)
    ensures priority == "N/A" <==> nice.None?
    ensures nice.Some? && -20 <= nice.value <= 19 ==> priority != "Desconhecida"
  {
    match nice
    case None => "N/A"
    case Some(n) =>
      if n <= -15 then "Muito Alta"
      else if n <= -1 then "Alta"
      else if n == 0 then "Normal"
      else if n <= 10 then "Baixa"
      else if n <= 19 then "Muito Baixa"
      else "Desconhecida"
  }

  /** Position of a label on the priority scale, highest priority first. */
  function Rank(priority: string): int {
    if priority == "Muito Alta" then 4
    else if priority == "Alta" then 3
    else if priority == "Normal" then 2
    else if priority == "Baixa" then 1
    else if priority == "Muito Baixa" then 0
    else -1
  }

  /** A larger nice value never gets a higher priority label. */
  lemma PriorityIsAntitone(a: int, b: int)
    requires a <= b
    ensures Rank(PriorityLabel(Some(b))) <= Rank(PriorityLabel(Some(a)))
  {
  }

  /** `sub` occurs at the end of `x + sub`. */
  lemma {:induction false} ContainsAtEnd(x: string, sub: string)
    ensures Contains(x + sub, sub)
    decreases |x|
  {
    if |x| > 0 {
      assert (x + sub)[1..] == x[1..] + sub;
      ContainsAtEnd(x[1..], sub);
    }
  }

  /** Removing "kb" from a string that ends in it and has no 'k' before it leaves the rest. */
  lemma {:induction false} RemoveTrailingKb(x: string)
    requires 'k' !in x
    ensures RemoveAll(x + "kb", "kb") == x
    decreases |x|
  {
    if |x| == 0 {
      assert x + "kb" == "kb";
      assert ("kb")[2..] == "";
    } else {
      var s := x + "kb";
      assert s[0] == x[0] != 'k';
      assert !("kb" <= s);
      assert s[1..] == x[1..] + "kb";
      RemoveTrailingKb(x[1..]);
    }
  }

  /** A string without the letter 'k' does not contain "kb". */
  lemma {:induction false} WithoutKNoKb(s: string)
    requires 'k' !in s
    ensures !Contains(s, "kb")
    decreases |s|
  {
    if |s| > 0 {
      assert s[0] != 'k';
      WithoutKNoKb(s[1..]);
    }
  }

  /** A digit string followed by white space parses back to its value. */
  lemma ParseDigitsThenSpace(d: string)
    requires IsDigits(d)
    ensures ParseInt(d + " ") == Some(DigitsValue(d))
  {
    var s := d + " ";
    assert s[0] == d[0] && !IsSpace(d[0]);
    assert TrimStart(s, Whitespace) == s;
    assert s[..|s| - 1] == d;
    assert TrimEnd(d, Whitespace) == d by {
      assert !IsSpace(d[|d| - 1]);
    }
    assert Strip(s) == d;
  }

  /** The status file's own format, "N kB", reads back as N. */
  lemma ParseKbOfStatusValue(n: nat)
    ensures ParseKb(NatToString(n) + " kB") == n
  {
    var d := NatToString(n);
    NatToStringDigits(n);
    var s := d + " kB";
    var lower := ToLower(s);
    assert lower == (d + " ") + "kb" by {
      assert |lower| == |(d + " ") + "kb"|;
      forall i | 0 <= i < |lower| ensures lower[i] == ((d + " ") + "kb")[i] {
        if i < |d| {
          assert s[i] == d[i] && IsDigit(d[i]);
        }
      }
    }
    ContainsAtEnd(d + " ", "kb");
    assert 'k' !in d + " " by {
      forall i | 0 <= i < |d + " "| ensures (d + " ")[i] != 'k' {
        if i < |d| { assert IsDigit(d[i]); }
      }
    }
    RemoveTrailingKb(d + " ");
    ParseDigitsThenSpace(d);
  }

  /** The default used for a missing field, "0 kB", reads as 0, and so does "N/A",
      which has no unit. */
  lemma ParseKbFallbacks()
    ensures ParseKb("0 kB") == 0
    ensures ParseKb("N/A") == 0
  {
    ParseKbOfStatusValue(0);
    assert NatToString(0) + " kB" == "0 kB";
    NotAvailableHasNoUnit();
  }

  lemma NotAvailableHasNoUnit()
    ensures !Contains(ToLower("N/A"), "kb")
  {
    assert ToLower("N/A") == "n/a";
    WithoutKNoKb("n/a");
  }
}
