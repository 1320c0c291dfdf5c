/**
 * The command-line argument parser: `run "<goal>"` followed by the flags
 * `--max-iterations N`, `--dry-run` and `--run-id ID`, scanned left to right with
 * value-taking flags consuming the next argument.
 */
module Cli {
  import opened Wrappers
  import opened Strings

  const Usage: string := "Usage: pnpm dev run \"<goal>\" [--max-iterations N] [--dry-run] [--run-id ID]"
  const DefaultMaxIterations: int := 10

  datatype Args = Args(goal: string, maxIterations: int, dryRun: bool, runId: string)

  /** The flags seen so far; `runId` is `None` until `--run-id` is given. */
  datatype Flags = Flags(maxIterations: int, dryRun: bool, runId: Option<string>)

  /** `argv[i]`, or `None` (JavaScript's `undefined`) past the end. */
  function At(argv: seq<string>, i: int): (r: Option<string>)
    ensures r.Some? <==> 0 <= i < |argv|
    ensures r.Some? ==> r.value == argv[i]
  {
    if 0 <= i < |argv| then Some(argv[i]) else None
  }

  /**
   * The value of `Number(arg)` when it is an integer: `undefined` is NaN, a blank string
   * is 0, and an optionally signed run of decimal digits (surrounding white space
   * trimmed) is its value; every other string counts as not an integer.
   */
  function NumberOf(arg: Option<string>): (r: Option<int>)
    ensures arg.None? ==> r.None?
    ensures arg.Some? && Trim(arg.value) == "" ==> r == Some(0)
  {
    match arg
    case None => None
    case Some(s) =>
      var t := Trim(s);
      if t == "" then Some(0)
      else if (t[0] == '+' || t[0] == '-') && |t| > 1 && AllDigits(t[1..]) then
        Some(if t[0] == '-' then 0 - DigitsValue(t[1..]) else DigitsValue(t[1..]))
      else if AllDigits(t) then Some(DigitsValue(t))
      else None
  }

  /** A string without white space at either end trims to itself. */
  lemma TrimUnspaced(s: string)
    requires s != [] && !IsSpace(s[0]) && !IsSpace(s[|s| - 1])
    ensures Trim(s) == s
  {
    var a := LeadingSpace(s);
    assert a == 0;
    assert s[a..] == s;
  }

  /** `Number` reads back the decimal rendering of a natural number. */
  lemma NumberOfNatRendering(n: nat)
    ensures NumberOf(Some(NatToString(n))) == Some(n)
  {
    var s := NatToString(n);
    assert IsDigit(s[0]) && IsDigit(s[|s| - 1]);
    TrimUnspaced(s);
    DigitsRoundTrip(n);
  }

  /** `Number` reads back a minus sign followed by the decimal rendering of a natural number. */
  lemma NumberOfNegatedRendering(m: nat)
    ensures NumberOf(Some("-" + NatToString(m))) == Some(0 - m)
  {
    var digits := NatToString(m);
    var s := "-" + digits;
    assert s[1..] == digits;
    assert s[|s| - 1] == digits[|digits| - 1] && IsDigit(digits[|digits| - 1]);
    TrimUnspaced(s);
    DigitsRoundTrip(m);
  }

  /** `Number` reads back the decimal rendering of every integer. */
  lemma NumberOfRendering(n: int)
    ensures NumberOf(Some(IntToString(n))) == Some(n)
  {
    if n < 0 {
      NumberOfNegatedRendering(-n);
    } else {
      NumberOfNatRendering(n);
    }
  }

  /** The flag scan from index `i` with the flags `f` seen so far. */
  function ScanFlags(argv: seq<string>, i: nat, f: Flags): Result<Flags, string>
    decreases |argv| - i
  {
    if i >= |argv| then Ok(f)
    else if argv[i] == "--dry-run" then ScanFlags(argv, i + 1, f.(dryRun := true))
    else if argv[i] == "--max-iterations" then
      var value := NumberOf(At(argv, i + 1));
      if value.None? || value.value <= 0 then Err("--max-iterations must be a positive integer")
      else ScanFlags(argv, i + 2, f.(maxIterations := value.value))
    else if argv[i] == "--run-id" then
      var id := At(argv, i + 1);
      if id.None? || id.value == "" then Err("--run-id requires a value")
      else ScanFlags(argv, i + 2, f.(runId := id))
    else ScanFlags(argv, i + 1, f)
  }

  /** `parseArgs`, with `generatedId` standing for the id `makeRunId` would produce. */
  function ParseArgsSpec(argv: seq<string>, generatedId: string): Result<Args, string> {
    if |argv| == 0 || argv[0] != "run" then Err(Usage)
    else if |argv| < 2 || argv[1] == "" then Err("Goal is required")
    else
      match ScanFlags(argv, 2, Flags(DefaultMaxIterations, false, None))
      case Err(message) => Err(message)
      case Ok(f) => Ok(Args(argv[1], f.maxIterations, f.dryRun, if f.runId.Some? then f.runId.value else generatedId))
  }

  /** `parseArgs`: walks `argv` once, skipping the value of each value-taking flag. */
  method ParseArgs(argv: seq<string>, generatedId: string) returns (r: Result<Args, string>)
    ensures r == ParseArgsSpec(argv, generatedId)
  {
    if |argv| == 0 || argv[0] != "run" {
      return Err(Usage);
    }
    if |argv| < 2 || argv[1] == "" {
      return Err("Goal is required");
    }
    var goal := argv[1];
    var maxIterations := DefaultMaxIterations;
    var dryRun := false;
    var runId: Option<string> := None;
    var i := 2;
    while i < |argv|
      invariant 2 <= i <= |argv|
      invariant ScanFlags(argv, 2, Flags(DefaultMaxIterations, false, None)) == ScanFlags(argv, i, Flags(maxIterations, dryRun, runId))
      decreases |argv| - i
    {
      var arg := argv[i];
      if arg == "--dry-run" {
        dryRun := true;
      } else if arg == "--max-iterations" {
        var value := NumberOf(At(argv, i + 1));
        if value.None? || value.value <= 0 {
          return Err("--max-iterations must be a positive integer");
        }
        maxIterations := value.value;
        i := i + 1;
      } else if arg == "--run-id" {
        runId := At(argv, i + 1);
        if runId.None? || runId.value == "" {
          return Err("--run-id requires a value");
        }
        i := i + 1;
      }
      i := i + 1;
    }
    r := Ok(Args(goal, maxIterations, dryRun, if runId.Some? then runId.value else generatedId));
  }

  /** A positive budget and, once given, a non-empty run id. */
  predicate WellFormed(f: Flags) {
    f.maxIterations > 0 && (f.runId.Some? ==> f.runId.value != "")
  }

  /** The scan only ever stores a positive budget and a non-empty run id. */
  lemma {:induction false} ScanKeepsWellFormed(argv: seq<string>, i: nat, f: Flags)
    requires WellFormed(f)
    ensures ScanFlags(argv, i, f).Ok? ==> WellFormed(ScanFlags(argv, i, f).value)
    decreases |argv| - i
  {
    if i < |argv| {
      if argv[i] == "--dry-run" {
        ScanKeepsWellFormed(argv, i + 1, f.(dryRun := true));
      } else if argv[i] == "--max-iterations" {
        var value := NumberOf(At(argv, i + 1));
        if value.Some? && value.value > 0 {
          ScanKeepsWellFormed(argv, i + 2, f.(maxIterations := value.value));
        }
      } else if argv[i] == "--run-id" {
        var id := At(argv, i + 1);
        if id.Some? && id.value != "" {
          ScanKeepsWellFormed(argv, i + 2, f.(runId := id));
        }
      } else {
        ScanKeepsWellFormed(argv, i + 1, f);
      }
    }
  }

  /**
   * A first argument other than "run" is a usage error; a missing or empty goal is an error;
   * a successful parse returns the goal verbatim, a positive budget and a non-empty run id
   * (the generated one when none is given).
   */
  lemma ParseArgsOutcome(argv: seq<string>, generatedId: string)
    ensures var r := ParseArgsSpec(argv, generatedId);
      && ((|argv| == 0 || argv[0] != "run") ==> r == Err(Usage))
      && (|argv| >= 1 && argv[0] == "run" && (|argv| < 2 || argv[1] == "") ==> r == Err("Goal is required"))
      && (r.Ok? ==> && |argv| >= 2 && argv[0] == "run" && r.value.goal == argv[1] && r.value.goal != ""
                    && r.value.maxIterations > 0
                    && (generatedId != "" ==> r.value.runId != ""))
  {
    if |argv| >= 2 && argv[0] == "run" && argv[1] != "" {
      ScanKeepsWellFormed(argv, 2, Flags(DefaultMaxIterations, false, None));
    }
  }

  /** One of the three flags the parser recognises. */
  predicate IsFlag(arg: string) {
    arg == "--dry-run" || arg == "--max-iterations" || arg == "--run-id"
  }

  /** Arguments that are not flags change nothing. */
  lemma {:induction false} ScanIgnoresOthers(argv: seq<string>, i: nat, f: Flags)
    requires forall j :: i <= j < |argv| ==> !IsFlag(argv[j])
    ensures ScanFlags(argv, i, f) == Ok(f)
    decreases |argv| - i
  {
    if i < |argv| {
      ScanIgnoresOthers(argv, i + 1, f);
    }
  }

  /**
   * Without flags the goal is taken verbatim with ten iterations, no dry run and the
   * generated run id; arguments after the goal that are not flags are ignored.
   */
  lemma DefaultsWithoutFlags(argv: seq<string>, generatedId: string)
    requires |argv| >= 2 && argv[0] == "run" && argv[1] != ""
    requires forall j :: 2 <= j < |argv| ==> !IsFlag(argv[j])
    ensures ParseArgsSpec(argv, generatedId) == Ok(Args(argv[1], 10, false, generatedId))
  {
    ScanIgnoresOthers(argv, 2, Flags(DefaultMaxIterations, false, None));
  }

  /** The scan of a suffix does not depend on what precedes it. */
  lemma {:induction false} ScanShift(a: seq<string>, b: seq<string>, i: nat, f: Flags)
    ensures ScanFlags(a + b, |a| + i, f) == ScanFlags(b, i, f)
    decreases |b| - i
  {
    var ab := a + b;
    if i < |b| {
      assert ab[|a| + i] == b[i];
      assert At(ab, |a| + i + 1) == At(b, i + 1);
      ScanShift(a, b, i + 1, f.(dryRun := true));
      ScanShift(a, b, i + 1, f);
      var value := NumberOf(At(b, i + 1));
      if value.Some? {
        ScanShift(a, b, i + 2, f.(maxIterations := value.value));
      }
      ScanShift(a, b, i + 2, f.(runId := At(b, i + 1)));
    }
  }

  /**
   * A scan that succeeds on `a` ends exactly at its end, so appending arguments continues
   * from the flags `a` left: later flags override earlier ones.
   */
  lemma {:induction false} ScanAppend(a: seq<string>, b: seq<string>, i: nat, f: Flags)
    requires i <= |a| && ScanFlags(a, i, f).Ok?
    ensures ScanFlags(a + b, i, f) == ScanFlags(b, 0, ScanFlags(a, i, f).value)
    decreases |a| - i
  {
    var ab := a + b;
    if i == |a| {
      ScanShift(a, b, 0, f);
    } else {
      assert ab[i] == a[i];
      if a[i] == "--dry-run" {
        ScanAppend(a, b, i + 1, f.(dryRun := true));
      } else if a[i] == "--max-iterations" {
        assert At(ab, i + 1) == At(a, i + 1);
        ScanAppend(a, b, i + 2, f.(maxIterations := NumberOf(At(a, i + 1)).value));
      } else if a[i] == "--run-id" {
        assert At(ab, i + 1) == At(a, i + 1);
        ScanAppend(a, b, i + 2, f.(runId := At(a, i + 1)));
      } else {
        ScanAppend(a, b, i + 1, f);
      }
    }
  }

  /** The last `--run-id` wins. */
  lemma RunIdLastWins(argv: seq<string>, id: string, generatedId: string)
    requires ParseArgsSpec(argv, generatedId).Ok? && id != ""
    ensures ParseArgsSpec(argv + ["--run-id", id], generatedId) == Ok(ParseArgsSpec(argv, generatedId).value.(runId := id))
  {
    var defaults := Flags(DefaultMaxIterations, false, None);
    ScanAppend(argv, ["--run-id", id], 2, defaults);
    var both := argv + ["--run-id", id];
    assert both[0] == argv[0] && both[1] == argv[1];
  }

  /** The last `--max-iterations` wins when its value is a positive integer, and is an error otherwise. */
  lemma MaxIterationsLastWins(argv: seq<string>, value: string, generatedId: string)
    requires ParseArgsSpec(argv, generatedId).Ok?
    ensures var r := ParseArgsSpec(argv + ["--max-iterations", value], generatedId);
      var n := NumberOf(Some(value));
      && (n.Some? && n.value > 0 ==> r == Ok(ParseArgsSpec(argv, generatedId).value.(maxIterations := n.value)))
      && (n.None? || n.value <= 0 ==> r == Err("--max-iterations must be a positive integer"))
  {
    var defaults := Flags(DefaultMaxIterations, false, None);
    ScanAppend(argv, ["--max-iterations", value], 2, defaults);
    var both := argv + ["--max-iterations", value];
    assert both[0] == argv[0] && both[1] == argv[1];
    assert At(["--max-iterations", value], 1) == Some(value);
  }

  /** A value-taking flag with nothing after it is an error. */
  lemma TrailingFlagFails(argv: seq<string>, flag: string, generatedId: string)
    requires ParseArgsSpec(argv, generatedId).Ok?
    requires flag == "--max-iterations" || flag == "--run-id"
    ensures ParseArgsSpec(argv + [flag], generatedId).Err?
  {
    var defaults := Flags(DefaultMaxIterations, false, None);
    ScanAppend(argv, [flag], 2, defaults);
    var both := argv + [flag];
    assert both[0] == argv[0] && both[1] == argv[1];
  }
}
