/**
 * The scenario target the run configuration hands to `vedro run`: a path
 * relative to the project directory, optionally followed by `::Name` to pick
 * one scenario and `#N` to pick its N-th params variant. `Parse` is the
 * reading the runner gives such a string; `ParseFormat` shows the plugin's
 * strings always read back as what was meant.
 */
module TargetFormat {
  import opened Wrappers

  datatype Selector = WholeFile | Scenario(name: string) | ScenarioParams(name: string, index: nat)

  datatype Target = Target(path: string, selector: Selector)

  function DigitChar(d: nat): char
    requires d < 10
  {
    "0123456789"[d]
  }

  predicate IsDigit(c: char)
  {
    '0' <= c <= '9'
  }

  predicate AllDigits(s: string)
  {
    forall i :: 0 <= i < |s| ==> IsDigit(s[i])
  }

  /** Java's decimal rendering of a non-negative int, as `"#" + index` produces. */
  function Decimal(n: nat): (r: string)
    ensures r != [] && AllDigits(r)
    decreases n
  {
    if n < 10 then [DigitChar(n)] else Decimal(n / 10) + [DigitChar(n % 10)]
  }

  function DigitsValue(s: string): nat
    requires AllDigits(s)
  {
    if s == [] then 0
    else DigitsValue(s[..|s| - 1]) * 10 + ((s[|s| - 1] as int) - ('0' as int))
  }

  lemma {:induction false} DecimalRoundTrip(n: nat)
    ensures DigitsValue(Decimal(n)) == n
    decreases n
  {
    if n >= 10 {
      DecimalRoundTrip(n / 10);
      var s := Decimal(n);
      assert s[..|s| - 1] == Decimal(n / 10);
    }
  }

  /** The index of the first `c` in `s`, or |s| when there is none. */
  function Find(s: string, c: char): (r: nat)
    ensures r <= |s|
    ensures r < |s| ==> s[r] == c
    ensures forall k :: 0 <= k < r ==> s[k] != c
  {
    if s == [] then 0 else if s[0] == c then 0 else 1 + Find(s[1..], c)
  }

  /**
   * The producer's concatenation: `path`, `path + "::" + name`, or
   * `path + "::" + name + "#" + index` with the index in decimal.
   */
  function Format(t: Target): string
  {
    match t.selector
    case WholeFile => t.path
    case Scenario(name) => t.path + "::" + name
    case ScenarioParams(name, index) => t.path + "::" + name + "#" + Decimal(index)
  }

  /**
   * Split at the first ':' (which must start "::") into the path and the
   * selector, and the selector at its first '#' into the name and the index.
   */
  function Parse(s: string): Option<Target>
  {
    var i := Find(s, ':');
    if i == |s| then Some(Target(s, WholeFile))
    else if i + 1 == |s| || s[i + 1] != ':' then None
    else
      var rest := s[i + 2..];
      var j := Find(rest, '#');
      if j == |rest| then Some(Target(s[..i], Scenario(rest)))
      else
        var digits := rest[j + 1..];
        if digits == [] || !AllDigits(digits) then None
        else Some(Target(s[..i], ScenarioParams(rest[..j], DigitsValue(digits))))
  }

  predicate NameOk(name: string)
  {
    forall k :: 0 <= k < |name| ==> name[k] != ':' && name[k] != '#'
  }

  /** A path without ':' and a scenario name without ':' or '#', as Python identifiers are. */
  predicate WellFormed(t: Target)
  {
    && (forall k :: 0 <= k < |t.path| ==> t.path[k] != ':')
    && match t.selector
       case WholeFile => true
       case Scenario(name) => NameOk(name)
       case ScenarioParams(name, _) => NameOk(name)
  }

  lemma FindFirst(a: string, b: string, c: char)
    requires forall k :: 0 <= k < |a| ==> a[k] != c
    requires b != [] && b[0] == c
    ensures Find(a + b, c) == |a|
  {
    var r := Find(a + b, c);
    assert (a + b)[|a|] == c;
  }

  lemma FindAbsent(a: string, c: char)
    requires forall k :: 0 <= k < |a| ==> a[k] != c
    ensures Find(a, c) == |a|
  {
  }

  lemma {:induction false} ParseScenario(path: string, name: string)
    requires forall k :: 0 <= k < |path| ==> path[k] != ':'
    requires NameOk(name)
    ensures Parse(path + "::" + name) == Some(Target(path, Scenario(name)))
  {
    var s := path + "::" + name;
    assert s == path + ("::" + name);
    FindFirst(path, "::" + name, ':');
    assert s[|path| + 1] == ':';
    var rest := s[|path| + 2..];
    assert rest == name;
    FindAbsent(name, '#');
    assert s[..|path|] == path;
  }

  lemma {:induction false} ParseScenarioParams(path: string, name: string, index: nat)
    requires forall k :: 0 <= k < |path| ==> path[k] != ':'
    requires NameOk(name)
    ensures Parse(path + "::" + name + "#" + Decimal(index)) == Some(Target(path, ScenarioParams(name, index)))
  {
    var d := Decimal(index);
    var s := path + "::" + name + "#" + d;
    assert s == path + ("::" + name + "#" + d);
    FindFirst(path, "::" + name + "#" + d, ':');
    assert s[|path| + 1] == ':';
    var rest := s[|path| + 2..];
    assert rest == name + ("#" + d);
    FindFirst(name, "#" + d, '#');
    assert rest[|name| + 1..] == d;
    assert rest[..|name|] == name;
    assert s[..|path|] == path;
    DecimalRoundTrip(index);
  }

  /** Every well-formed target reads back as itself. */
  lemma ParseFormat(t: Target)
    requires WellFormed(t)
    ensures Parse(Format(t)) == Some(t)
  {
    match t.selector
    case WholeFile =>
      FindAbsent(t.path, ':');
    case Scenario(name) =>
      ParseScenario(t.path, name);
    case ScenarioParams(name, index) =>
      ParseScenarioParams(t.path, name, index);
  }
}
