/** `DataAnalyzer._convert_price` and `DataAnalyzer._convert_count`
    (analyse.py:603-626): the strings the crawler stores ("RM10.00", "39.4K",
    "N/A") turned into numbers. Python's `float()` can raise on the matched
    text ("1.2.3"); that outcome is an `Err`, which the ranking counts as a
    skipped product. */
module Numbers {

  import opened Wrappers
  import opened Strings

  // ---------------------------------------------------------------------
  // float() on a run of [\d.]
  // ---------------------------------------------------------------------

  function DigitValue(c: char): nat
    requires IsDigit(c)
  {
    (c as int - '0' as int) as nat
  }

  predicate AllDigits(d: string) {
    forall k :: 0 <= k < |d| ==> IsDigit(d[k])
  }

  predicate AllRunChars(d: string) {
    forall k :: 0 <= k < |d| ==> IsRunChar(d[k])
  }

  /** The value of a string of decimal digits, most significant first. */
  function DigitsValue(d: string): nat
    requires AllDigits(d)
  {
    if |d| == 0 then 0 else DigitsValue(d[..|d| - 1]) * 10 + DigitValue(d[|d| - 1])
  }

  function Pow10(n: nat): (r: nat)
    ensures r >= 1
  {
    if n == 0 then 1 else 10 * Pow10(n - 1)
  }

  /** The value of the decimal numeral `whole.frac`. */
  function DecimalValue(whole: string, frac: string): (v: real)
    requires AllDigits(whole) && AllDigits(frac)
    ensures v >= 0.0
  {
    DigitsValue(whole) as real + (DigitsValue(frac) as real) / (Pow10(|frac|) as real)
  }

  predicate HasDigit(run: string) {
    exists k :: 0 <= k < |run| && IsDigit(run[k])
  }

  predicate AtMostOneDot(run: string) {
    forall i, j :: 0 <= i < j < |run| && run[i] == '.' ==> run[j] != '.'
  }

  /** Python's `float(run)` for a run of digits and dots: it accepts exactly
      the runs with at least one digit and at most one dot ("5", "5.", ".5",
      "10.00") and raises `ValueError` on the others (".", "1.2.3"); see
      ParseFloatAccepts. */
  function ParseFloat(run: string): (r: Result<real>)
    requires AllRunChars(run)
    ensures r.Ok? ==> r.value >= 0.0
  {
    match FirstIndexOf(run, '.')
    case None =>
      DigitsWithoutDot(run);
      if |run| == 0 then Err("could not convert string to float")
      else Ok(DigitsValue(run) as real)
    case Some(i) =>
      if '.' in run[i + 1..] || |run| == 1 then Err("could not convert string to float")
      else
        DigitsAroundDot(run, i);
        Ok(DecimalValue(run[..i], run[i + 1..]))
  }

  lemma DigitsWithoutDot(run: string)
    requires AllRunChars(run) && '.' !in run
    ensures AllDigits(run)
  {
    forall k | 0 <= k < |run| ensures IsDigit(run[k]) { assert run[k] in run; }
  }

  lemma DigitsAroundDot(run: string, i: nat)
    requires AllRunChars(run) && i < |run| && '.' !in run[..i] && '.' !in run[i + 1..]
    ensures AllDigits(run[..i]) && AllDigits(run[i + 1..])
  {
    DigitsWithoutDot(run[..i]);
    DigitsWithoutDot(run[i + 1..]);
  }

  /** `float()` accepts a run exactly when it has a digit and at most one dot. */
  lemma ParseFloatAccepts(run: string)
    requires AllRunChars(run)
    ensures ParseFloat(run).Ok? <==> HasDigit(run) && AtMostOneDot(run)
  {
    match FirstIndexOf(run, '.')
    case None =>
      DigitsWithoutDot(run);
      if |run| > 0 { assert IsDigit(run[0]); }
    case Some(i) =>
      var frac := run[i + 1..];
      if '.' in frac {
        var j :| 0 <= j < |frac| && frac[j] == '.';
        assert run[i + 1 + j] == '.';
      } else if |run| == 1 {
        assert !IsDigit(run[0]);
      } else {
        assert HasDigit(run) by {
          if i > 0 { assert IsDigit(run[0]) by { assert run[0] in run[..i]; } }
          else { assert IsDigit(run[1]) by { assert run[1] == frac[0]; } }
        }
        forall k | 0 <= k < |run| && k != i ensures run[k] != '.' {
          if k < i { assert run[k] in run[..i]; } else { assert run[k] == frac[k - i - 1]; }
        }
      }
  }

  // ---------------------------------------------------------------------
  // Locating the match of the regular expressions
  // ---------------------------------------------------------------------

  /** The first index at or after `from` holding a character of `[\d.]`. */
  function FirstRunStart(s: string, from: nat): (r: Option<nat>)
    decreases |s| - from
    ensures r.Some? ==> from <= r.value < |s| && IsRunChar(s[r.value])
    ensures r.Some? ==> forall k :: from <= k < r.value ==> !IsRunChar(s[k])
    ensures r.None? ==> forall k :: from <= k < |s| ==> !IsRunChar(s[k])
  {
    if from >= |s| then None
    else if IsRunChar(s[from]) then Some(from)
    else FirstRunStart(s, from + 1)
  }

  /** The end of the greedy run `[\d.]+` that starts at `i`. */
  function RunEnd(s: string, i: nat): (r: nat)
    requires i <= |s|
    decreases |s| - i
    ensures i <= r <= |s|
    ensures forall k :: i <= k < r ==> IsRunChar(s[k])
    ensures r == |s| || !IsRunChar(s[r])
  {
    if i == |s| || !IsRunChar(s[i]) then i else RunEnd(s, i + 1)
  }

  /** The first index at or after `from` where "RM" is followed by `[\d.]`. */
  function FirstPriceStart(s: string, from: nat): (r: Option<nat>)
    decreases |s| - from
    ensures r.Some? ==> from <= r.value && r.value + 2 < |s| && OccursAt(s, "RM", r.value) && IsRunChar(s[r.value + 2])
    ensures r.Some? ==> forall k :: from <= k < r.value ==> !(OccursAt(s, "RM", k) && k + 2 < |s| && IsRunChar(s[k + 2]))
    ensures r.None? ==> forall k :: from <= k ==> !(OccursAt(s, "RM", k) && k + 2 < |s| && IsRunChar(s[k + 2]))
  {
    if from + 2 >= |s| then None
    else if s[from..from + 2] == "RM" && IsRunChar(s[from + 2]) then Some(from)
    else FirstPriceStart(s, from + 1)
  }

  /** True of a field that `not s or s == 'N/A'` sends to 0.0; `None` stands
      for a missing key (read as 'N/A') or a JSON null. */
  predicate IsBlank(field: Option<string>) {
    field.None? || field.value == "" || field.value == "N/A"
  }

  /** The multiplier of the optional `([KM])?` group right after the run. */
  function UnitMultiplier(s: string, end: nat): (m: real)
    ensures m == 1.0 || m == 1000.0 || m == 1000000.0
  {
    if end < |s| && s[end] == 'K' then 1000.0
    else if end < |s| && s[end] == 'M' then 1000000.0
    else 1.0
  }

  // ---------------------------------------------------------------------
  // The two conversions
  // ---------------------------------------------------------------------

  /** `_convert_price` (analyse.py:603-611): the run of `RM([\d.]+)`. */
  function ConvertPrice(field: Option<string>): (r: Result<real>)
    ensures r.Ok? ==> r.value >= 0.0
    ensures IsBlank(field) ==> r == Ok(0.0)
    ensures !IsBlank(field) && FirstPriceStart(field.value, 0).None? ==> r == Ok(0.0)
  {
    if IsBlank(field) then Ok(0.0)
    else
      var s := field.value;
      match FirstPriceStart(s, 0)
      case None => Ok(0.0)
      case Some(i) =>
        var j := RunEnd(s, i + 2);
        ParseFloat(s[i + 2..j])
  }

  /** `_convert_count` (analyse.py:613-626): the leftmost run of `[\d.]+`,
      times 1000 for a `K` or 1000000 for an `M` right after it. */
  function ConvertCount(field: Option<string>): (r: Result<real>)
    ensures r.Ok? ==> r.value >= 0.0
    ensures IsBlank(field) ==> r == Ok(0.0)
    ensures !IsBlank(field) && FirstRunStart(field.value, 0).None? ==> r == Ok(0.0)
  {
    if IsBlank(field) then Ok(0.0)
    else
      var s := field.value;
      match FirstRunStart(s, 0)
      case None => Ok(0.0)
      case Some(i) =>
        var j := RunEnd(s, i);
        match ParseFloat(s[i..j])
        case Err(e) => Err(e)
        case Ok(v) => Ok(v * UnitMultiplier(s, j))
  }

  lemma {:induction false} FirstRunStartAt(s: string, from: nat, i: nat)
    requires from <= i < |s| && IsRunChar(s[i])
    requires forall k :: from <= k < i ==> !IsRunChar(s[k])
    decreases i - from
    ensures FirstRunStart(s, from) == Some(i)
  {
    if from < i { FirstRunStartAt(s, from + 1, i); }
  }

  lemma {:induction false} RunEndAt(s: string, i: nat, e: nat)
    requires i <= e <= |s|
    requires forall k :: i <= k < e ==> IsRunChar(s[k])
    requires e == |s| || !IsRunChar(s[e])
    decreases e - i
    ensures RunEnd(s, i) == e
  {
    if i < e { RunEndAt(s, i + 1, e); }
  }

  lemma {:induction false} FirstPriceStartAt(s: string, from: nat, i: nat)
    requires from <= i && i + 2 < |s| && OccursAt(s, "RM", i) && IsRunChar(s[i + 2])
    requires forall k :: from <= k < i ==> !OccursAt(s, "RM", k)
    decreases i - from
    ensures FirstPriceStart(s, from) == Some(i)
  {
    if from < i {
      assert s[from..from + 2] != "RM" by { assert !OccursAt(s, "RM", from); }
      FirstPriceStartAt(s, from + 1, i);
    }
  }

  // ---------------------------------------------------------------------
  // What the conversions compute, stated on the shape of the input
  // ---------------------------------------------------------------------

  predicate NoRunChars(p: string) {
    forall k :: 0 <= k < |p| ==> !IsRunChar(p[k])
  }

  /** A count is read from the first run of digits and dots, whatever text
      precedes it, scaled by the letter right after it. */
  lemma CountOfShape(prefix: string, run: string, rest: string)
    requires NoRunChars(prefix) && |run| > 0 && AllRunChars(run)
    requires rest == [] || !IsRunChar(rest[0])
    requires prefix + run + rest != "N/A"
    ensures var s := prefix + run + rest;
      ConvertCount(Some(s)) ==
        match ParseFloat(run)
        case Err(e) => Err(e)
        case Ok(v) => Ok(v * (if rest != [] && rest[0] == 'K' then 1000.0
                              else if rest != [] && rest[0] == 'M' then 1000000.0
                              else 1.0))
  {
    var s := prefix + run + rest;
    var e := |prefix| + |run|;
    CountStart(prefix, run, rest);
    RunOfShape(prefix, run, rest);
    if rest != [] { assert s[e] == rest[0]; }
  }

  /** The first run starts right after a prefix without run characters. */
  lemma CountStart(prefix: string, run: string, rest: string)
    requires NoRunChars(prefix) && |run| > 0 && AllRunChars(run)
    ensures FirstRunStart(prefix + run + rest, 0) == Some(|prefix|)
  {
    var s := prefix + run + rest;
    assert s[|prefix|] == run[0];
    forall k | 0 <= k < |prefix| ensures !IsRunChar(s[k]) { assert s[k] == prefix[k]; }
    FirstRunStartAt(s, 0, |prefix|);
  }

  /** A run followed by a non-run character or the end is read whole. */
  lemma RunOfShape(prefix: string, run: string, rest: string)
    requires AllRunChars(run)
    requires rest == [] || !IsRunChar(rest[0])
    ensures var s, p := prefix + run + rest, |prefix|;
      RunEnd(s, p) == p + |run| && s[p..p + |run|] == run
  {
    var s, p, e := prefix + run + rest, |prefix|, |prefix| + |run|;
    forall k | p <= k < e ensures IsRunChar(s[k]) { assert s[k] == run[k - p]; }
    if rest != [] { assert s[e] == rest[0]; }
    RunEndAt(s, p, e);
    assert s[p..e] == run;
  }

  /** A price is read from the run after the first "RM" that has one. */
  lemma PriceOfShape(prefix: string, run: string, rest: string)
    requires forall k :: !OccursAt(prefix, "RM", k)
    requires |run| > 0 && AllRunChars(run)
    requires rest == [] || !IsRunChar(rest[0])
    ensures ConvertPrice(Some(prefix + "RM" + run + rest)) == ParseFloat(run)
  {
    PriceStart(prefix, run, rest);
    RunOfShape(prefix + "RM", run, rest);
  }

  /** The first "RM" followed by a run character is the one after a
      prefix without "RM". */
  lemma PriceStart(prefix: string, run: string, rest: string)
    requires forall k :: !OccursAt(prefix, "RM", k)
    requires |run| > 0 && AllRunChars(run)
    ensures FirstPriceStart(prefix + "RM" + run + rest, 0) == Some(|prefix|)
  {
    var s := prefix + "RM" + run + rest;
    var p := |prefix|;
    assert s[p..p + 2] == "RM" && s[p + 2] == run[0];
    forall k | 0 <= k < p ensures !OccursAt(s, "RM", k) {
      if k + 1 < p {
        assert s[k..k + 2] == prefix[k..k + 2];
        assert !OccursAt(prefix, "RM", k);
      } else {
        assert s[k + 1] == 'R';
        assert k + 2 <= |s| && s[k..k + 2][1] == s[k + 1];
      }
    }
    FirstPriceStartAt(s, 0, p);
  }

  // ---------------------------------------------------------------------
  // The examples the source's own test data and comments use
  // (analyse.py:614 and analyse.py:1017-1019).

  lemma NoDotInDigits(d: string)
    requires AllDigits(d)
    ensures '.' !in d
  {
    forall k | 0 <= k < |d| ensures d[k] != '.' { assert IsDigit(d[k]); }
  }

  /** `float(w + "." + f)` for digit strings `w` and `f`, not both empty. */
  lemma ParseDecimal(w: string, f: string)
    requires AllDigits(w) && AllDigits(f) && |w| + |f| > 0
    ensures AllRunChars(w + "." + f)
    ensures ParseFloat(w + "." + f) == Ok(DecimalValue(w, f))
  {
    var run := w + "." + f;
    forall k | 0 <= k < |run| ensures IsRunChar(run[k]) {
      if k < |w| { assert run[k] == w[k]; } else if k > |w| { assert run[k] == f[k - |w| - 1]; }
    }
    assert run[..|w|] == w;
    assert run[|w| + 1..] == f;
    NoDotInDigits(w);
    NoDotInDigits(f);
    FirstIndexOfAt(run, '.', |w|);
    assert FirstIndexOf(run, '.') == Some(|w|);
    assert |run| - |w| - 1 == |f|;
    assert !('.' in run[|w| + 1..] || |run| == 1);
  }

  lemma PriceExample()
    ensures ConvertPrice(Some("RM10.00")) == Ok(10.0)
  {
    assert "RM10.00" == "" + "RM" + ("10" + "." + "00") + "";
    assert DigitsValue("10") == 10 by { assert "10"[..1] == "1" && "1"[..0] == ""; }
    assert DigitsValue("00") == 0 by { assert "00"[..1] == "0" && "0"[..0] == ""; }
    assert DecimalValue("10", "00") == 10.0;
    ParseDecimal("10", "00");
    PriceOfShape("", "10" + "." + "00", "");
  }

  lemma KiloExample()
    ensures ConvertCount(Some("39.4K")) == Ok(39400.0)
  {
    ParseKiloRun();
    CountOfShape("", "39.4", "K");
    assert "" + "39.4" + "K" == "39.4K";
  }

  lemma ParseKiloRun()
    ensures AllRunChars("39.4") && ParseFloat("39.4") == Ok(39.4)
  {
    assert DigitsValue("39") == 39 by { assert "39"[..1] == "3" && "3"[..0] == ""; }
    assert DigitsValue("4") == 4 by { assert "4"[..0] == ""; }
    ParseDecimal("39", "4");
    assert "39" + "." + "4" == "39.4";
  }

  lemma MegaExample()
    ensures ConvertCount(Some("2.3M")) == Ok(2300000.0)
  {
    ParseMegaRun();
    CountOfShape("", "2.3", "M");
    assert "" + "2.3" + "M" == "2.3M";
  }

  lemma ParseMegaRun()
    ensures AllRunChars("2.3") && ParseFloat("2.3") == Ok(2.3)
  {
    assert DigitsValue("2") == 2 by { assert "2"[..0] == ""; }
    assert DigitsValue("3") == 3 by { assert "3"[..0] == ""; }
    ParseDecimal("2", "3");
    assert "2" + "." + "3" == "2.3";
  }

  lemma MalformedRunExample()
    ensures ConvertCount(Some("1.2.3")).Err?
  {
    assert "1.2.3" == "" + "1.2.3" + "";
    CountOfShape("", "1.2.3", "");
    ParseFloatAccepts("1.2.3");
    assert !AtMostOneDot("1.2.3") by { assert "1.2.3"[1] == '.' && "1.2.3"[3] == '.'; }
  }
}
