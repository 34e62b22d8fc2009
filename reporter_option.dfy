/** The reporting options: what is reported at exit, which CPU trap the
 *  run is expected to end with, and which memory ranges are dumped
 *  (configure_reporter in src/cli/main.cpp). */
module ReporterOption {
  import opened Cli
  import opened Text
  import opened RangeArgument

  /** The expected traps configure_reporter can register: an unsupported
   *  instruction (the one fail-match letter decoded) and "any trap". */
  datatype FailReason = UnsupportedInstr | FailAny

  /** One fail-match letter: only `i` (either case) is decoded. */
  function FailReasonFromChar(c: char): (r: Option<FailReason>)
    ensures r.Some? <==> c == 'i' || c == 'I'
    ensures r.Some? ==> r.value == UnsupportedInstr
  {
    if Lower(c) == 'i' then Some(UnsupportedInstr) else None
  }

  /** The number of letters in all fail-match values. */
  function CharCount(values: seq<string>): nat {
    if values == [] then 0 else |values[0]| + CharCount(values[1..])
  }

  /** The fail-match loops: each letter of each value, in order, adds one
   *  expected trap; the first letter that is not decoded stops them. */
  function ExpectFailMatch(expected: seq<FailReason>, values: seq<string>): (r: Outcome<seq<FailReason>>)
    ensures |expected| <= |r.state| && r.state[..|expected|] == expected
    ensures forall k :: |expected| <= k < |r.state| ==> r.state[k] == UnsupportedInstr
    decreases |values|, if values == [] then 0 else |values[0]|
  {
    if values == [] then Outcome(expected, None)
    else if values[0] == "" then ExpectFailMatch(expected, values[1..])
    else
      match FailReasonFromChar(values[0][0])
      case None => Outcome(expected, Some(UnknownFailCondition(values[0][0])))
      case Some(reason) => ExpectFailMatch(expected + [reason], [values[0][1..]] + values[1..])
  }

  /** Every letter of every value must be `i` or `I`; each one adds one
   *  unsupported-instruction expectation, and a rejected letter is the
   *  one the diagnostic names. */
  lemma {:induction false} FailMatchDecodes(expected: seq<FailReason>, values: seq<string>)
    ensures var r := ExpectFailMatch(expected, values);
            r.failure.None? <==> forall i, j :: 0 <= i < |values| && 0 <= j < |values[i]| ==> Lower(values[i][j]) == 'i'
    ensures var r := ExpectFailMatch(expected, values);
            r.failure.None? ==> r.state == expected + seq(CharCount(values), _ => UnsupportedInstr)
    ensures var r := ExpectFailMatch(expected, values);
            r.failure.Some? ==> r.failure.value.UnknownFailCondition? && Lower(r.failure.value.condition) != 'i'
    decreases |values|, if values == [] then 0 else |values[0]|
  {
    if values == [] {
      assert expected + seq(0, _ => UnsupportedInstr) == expected;
    } else if values[0] == "" {
      var rest := values[1..];
      FailMatchDecodes(expected, rest);
      assert forall i :: 1 <= i < |values| ==> values[i] == rest[i - 1];
      assert forall i :: 0 <= i < |rest| ==> rest[i] == values[i + 1];
    } else {
      var v := values[0];
      var rest := values[1..];
      var next := [v[1..]] + rest;
      if Lower(v[0]) == 'i' {
        FailMatchDecodes(expected + [UnsupportedInstr], next);
        assert next[1..] == rest;
        assert CharCount(next) == |v| - 1 + CharCount(rest);
        assert CharCount(values) == |v| + CharCount(rest);
        assert (expected + [UnsupportedInstr]) + seq(CharCount(next), _ => UnsupportedInstr)
            == expected + seq(CharCount(values), _ => UnsupportedInstr);
        forall i, j | 0 <= i < |values| && 0 <= j < |values[i]|
          ensures (Lower(values[i][j]) == 'i') <==> (if i == 0 then j == 0 || Lower(next[0][j - 1]) == 'i'
                                                     else Lower(next[i][j]) == 'i')
        {
          if i == 0 && j > 0 { assert values[0][j] == next[0][j - 1]; }
          if i > 0 { assert values[i] == next[i]; }
        }
        forall i, j | 0 <= i < |next| && 0 <= j < |next[i]|
          ensures Lower(next[i][j]) == 'i' <==> Lower(values[i][if i == 0 then j + 1 else j]) == 'i'
        {
          if i == 0 { assert next[0][j] == v[j + 1]; } else { assert next[i] == values[i]; }
        }
      }
    }
  }

  /** Every letter before position (i, j), in the order the loops visit
   *  them, is `i` or `I`. */
  predicate LettersBeforeAreI(values: seq<string>, i: nat, j: nat) {
    forall a, b :: 0 <= a < |values| && 0 <= b < |values[a]| && (a < i || (a == i && b < j)) ==>
      Lower(values[a][b]) == 'i'
  }

  /** A rejected fail-match names the first letter, in the loops' order,
   *  that is not `i` or `I`. */
  lemma {:induction false} FailMatchRejects(expected: seq<FailReason>, values: seq<string>)
    requires ExpectFailMatch(expected, values).failure.Some?
    ensures exists i, j :: 0 <= i < |values| && 0 <= j < |values[i]|
              && ExpectFailMatch(expected, values).failure == Some(UnknownFailCondition(values[i][j]))
              && Lower(values[i][j]) != 'i'
              && LettersBeforeAreI(values, i, j)
    decreases |values|, if values == [] then 0 else |values[0]|
  {
    var v := values[0];
    var rest := values[1..];
    var r := ExpectFailMatch(expected, values);
    if v == "" {
      FailMatchRejects(expected, rest);
      var i, j :| 0 <= i < |rest| && 0 <= j < |rest[i]|
                  && ExpectFailMatch(expected, rest).failure == Some(UnknownFailCondition(rest[i][j]))
                  && Lower(rest[i][j]) != 'i' && LettersBeforeAreI(rest, i, j);
      assert values[i + 1] == rest[i];
      forall a, b | 0 <= a < |values| && 0 <= b < |values[a]| && (a < i + 1 || (a == i + 1 && b < j))
        ensures Lower(values[a][b]) == 'i'
      {
        assert a > 0;
        assert values[a] == rest[a - 1];
      }
      assert LettersBeforeAreI(values, i + 1, j);
    } else if Lower(v[0]) != 'i' {
      assert r.failure == Some(UnknownFailCondition(values[0][0]));
      assert LettersBeforeAreI(values, 0, 0);
    } else {
      var next := [v[1..]] + rest;
      assert r == ExpectFailMatch(expected + [UnsupportedInstr], next);
      FailMatchRejects(expected + [UnsupportedInstr], next);
      var i, j :| 0 <= i < |next| && 0 <= j < |next[i]|
                  && r.failure == Some(UnknownFailCondition(next[i][j]))
                  && Lower(next[i][j]) != 'i' && LettersBeforeAreI(next, i, j);
      if i == 0 {
        assert next[0][j] == values[0][j + 1];
        forall a, b | 0 <= a < |values| && 0 <= b < |values[a]| && (a < 0 || (a == 0 && b < j + 1))
          ensures Lower(values[a][b]) == 'i'
        {
          if b > 0 { assert values[0][b] == next[0][b - 1]; }
        }
        assert LettersBeforeAreI(values, 0, j + 1);
      } else {
        assert next[i] == values[i];
        forall a, b | 0 <= a < |values| && 0 <= b < |values[a]| && (a < i || (a == i && b < j))
          ensures Lower(values[a][b]) == 'i'
        {
          if a == 0 {
            if b > 0 { assert values[0][b] == next[0][b - 1]; }
          } else {
            assert values[a] == next[a];
          }
        }
        assert LettersBeforeAreI(values, i, j);
      }
    }
  }

  /** `--dump-range` arguments: each adds one range, in order; the first
   *  one that does not parse stops the loop. */
  function AddDumpRanges(ranges: seq<DumpRange>, args: seq<string>, symtab: Option<SymbolTable>, num: NumberSyntax)
    : (r: Outcome<seq<DumpRange>>)
    ensures |ranges| <= |r.state| <= |ranges| + |args| && r.state[..|ranges|] == ranges
    ensures r.failure.Some? ==> r.failure.value in {RangeStartMissing, RangeLengthMissing, RangeSpecification}
    ensures forall i :: 0 <= i < |r.state| - |ranges| ==> ParseDumpRange(args[i], symtab, num) == Success(r.state[|ranges| + i])
    ensures r.failure.Some? ==>
              |r.state| < |ranges| + |args|
              && ParseDumpRange(args[|r.state| - |ranges|], symtab, num) == Failure(r.failure.value)
    decreases |args|
  {
    if args == [] then Outcome(ranges, None)
    else
      match ParseDumpRange(args[0], symtab, num)
      case Failure(e) => Outcome(ranges, Some(e))
      case Success(d) => AddDumpRanges(ranges + [d], args[1..], symtab, num)
  }

  /** The ranges are added without a diagnostic exactly when every
   *  argument parses, and then they are the parsed arguments, in order,
   *  after the ranges already there. */
  lemma {:induction false} DumpRangesAdded(ranges: seq<DumpRange>, args: seq<string>, symtab: Option<SymbolTable>, num: NumberSyntax)
    ensures var r := AddDumpRanges(ranges, args, symtab, num);
            r.failure.None? <==> forall i :: 0 <= i < |args| ==> ParseDumpRange(args[i], symtab, num).Success?
    ensures var r := AddDumpRanges(ranges, args, symtab, num);
            r.failure.None? ==>
              |r.state| == |ranges| + |args| && r.state[..|ranges|] == ranges
              && forall i :: 0 <= i < |args| ==> Success(r.state[|ranges| + i]) == ParseDumpRange(args[i], symtab, num)
    decreases |args|
  {
    if args != [] {
      var rest := args[1..];
      assert forall i :: 1 <= i < |args| ==> args[i] == rest[i - 1];
      match ParseDumpRange(args[0], symtab, num)
      case Failure(e) =>
      case Success(d) =>
        DumpRangesAdded(ranges + [d], rest, symtab, num);
        var r := AddDumpRanges(ranges, args, symtab, num);
        assert r == AddDumpRanges(ranges + [d], rest, symtab, num);
        if r.failure.None? {
          assert r.state[|ranges|] == (ranges + [d])[|ranges|] == d;
        }
    }
  }

  /** What the Reporter is told by configure_reporter. */
  datatype ReporterSettings = ReporterSettings(
    regs: bool, cacheStats: bool, cycles: bool,
    expected: seq<FailReason>, dumpRanges: seq<DumpRange>)

  /** The reporting switches, the fail-match letters and expect-fail. */
  function ApplyExpectations(rep: ReporterSettings, cl: CommandLine): (r: Outcome<ReporterSettings>)
    ensures r.state.regs == (rep.regs || IsSet(cl, "dump-registers"))
            && r.state.cacheStats == (rep.cacheStats || IsSet(cl, "dump-cache-stats"))
            && r.state.cycles == (rep.cycles || IsSet(cl, "dump-cycles"))
    ensures r.state.dumpRanges == rep.dumpRanges
    ensures IsSet(cl, "expect-fail") && !IsSet(cl, "fail-match") ==>
              r == Outcome(r.state, None) && r.state.expected == rep.expected + [FailAny]
    ensures !IsSet(cl, "expect-fail") && !IsSet(cl, "fail-match") ==>
              r == Outcome(r.state, None) && r.state.expected == rep.expected
    ensures r.failure == ExpectFailMatch(rep.expected, Values(cl, "fail-match")).failure
    ensures IsSet(cl, "fail-match") ==> r.state.expected == ExpectFailMatch(rep.expected, Values(cl, "fail-match")).state
  {
    var rep := rep.(regs := rep.regs || IsSet(cl, "dump-registers"),
                    cacheStats := rep.cacheStats || IsSet(cl, "dump-cache-stats"),
                    cycles := rep.cycles || IsSet(cl, "dump-cycles"));
    var fm := ExpectFailMatch(rep.expected, Values(cl, "fail-match"));
    var rep := rep.(expected := fm.state);
    if fm.failure.Some? then Outcome(rep, fm.failure)
    else if IsSet(cl, "expect-fail") && !IsSet(cl, "fail-match") then
      Outcome(rep.(expected := rep.expected + [FailAny]), None)
    else Outcome(rep, None)
  }

  /** configure_reporter: the reporter's settings after decoding the
   *  command line, and the first diagnostic. */
  function ApplyReporterOptions(rep: ReporterSettings, cl: CommandLine, symtab: Option<SymbolTable>, num: NumberSyntax)
    : (r: Outcome<ReporterSettings>)
    ensures var e := ApplyExpectations(rep, cl);
            r.state.regs == e.state.regs && r.state.cacheStats == e.state.cacheStats
            && r.state.cycles == e.state.cycles && r.state.expected == e.state.expected
    ensures var e := ApplyExpectations(rep, cl);
            var d := AddDumpRanges(rep.dumpRanges, Values(cl, "dump-range"), symtab, num);
            (e.failure.Some? ==> r.failure == e.failure && r.state.dumpRanges == rep.dumpRanges)
            && (e.failure.None? ==> r.failure == d.failure && r.state.dumpRanges == d.state)
  {
    var e := ApplyExpectations(rep, cl);
    if e.failure.Some? then e
    else
      var d := AddDumpRanges(e.state.dumpRanges, Values(cl, "dump-range"), symtab, num);
      Outcome(e.state.(dumpRanges := d.state), d.failure)
  }

  /** configure_reporter reports nothing exactly when every fail-match
   *  letter is `i` or `I` and every dump-range argument parses; the
   *  reporter then expects one unsupported instruction per letter (or any
   *  trap, for expect-fail alone) and dumps the parsed ranges in order. */
  lemma ReporterOptionsAccepted(rep: ReporterSettings, cl: CommandLine, symtab: Option<SymbolTable>, num: NumberSyntax)
    ensures var r := ApplyReporterOptions(rep, cl, symtab, num);
            var fail, ranges := Values(cl, "fail-match"), Values(cl, "dump-range");
            r.failure.None? <==>
              (forall i, j :: 0 <= i < |fail| && 0 <= j < |fail[i]| ==> Lower(fail[i][j]) == 'i')
              && (forall i :: 0 <= i < |ranges| ==> ParseDumpRange(ranges[i], symtab, num).Success?)
    ensures var r := ApplyReporterOptions(rep, cl, symtab, num);
            var fail, ranges := Values(cl, "fail-match"), Values(cl, "dump-range");
            r.failure.None? ==>
              r.state.expected == rep.expected + seq(CharCount(fail), _ => UnsupportedInstr)
                                  + (if IsSet(cl, "expect-fail") && !IsSet(cl, "fail-match") then [FailAny] else [])
              && |r.state.dumpRanges| == |rep.dumpRanges| + |ranges|
              && r.state.dumpRanges[..|rep.dumpRanges|] == rep.dumpRanges
              && forall i :: 0 <= i < |ranges| ==>
                   Success(r.state.dumpRanges[|rep.dumpRanges| + i]) == ParseDumpRange(ranges[i], symtab, num)
  {
    var fail := Values(cl, "fail-match");
    FailMatchDecodes(rep.expected, fail);
    DumpRangesAdded(rep.dumpRanges, Values(cl, "dump-range"), symtab, num);
    if IsSet(cl, "expect-fail") && !IsSet(cl, "fail-match") {
      assert fail == [];
      assert ExpectFailMatch(rep.expected, fail).state == rep.expected + seq(CharCount(fail), _ => UnsupportedInstr);
    } else {
      assert rep.expected + seq(CharCount(fail), _ => UnsupportedInstr) + []
          == rep.expected + seq(CharCount(fail), _ => UnsupportedInstr);
    }
  }

  /** The Reporter's configuration as configure_reporter changes it. */
  class Reporter {
    var regsReporting: bool
    var cacheStatsReporting: bool
    var cyclesReporting: bool
    var expectedFailures: seq<FailReason>
    var dumpRanges: seq<DumpRange>

    function Settings(): ReporterSettings
      reads this
    {
      ReporterSettings(regsReporting, cacheStatsReporting, cyclesReporting, expectedFailures, dumpRanges)
    }

    constructor ()
      ensures Settings() == ReporterSettings(false, false, false, [], [])
    {
      regsReporting, cacheStatsReporting, cyclesReporting := false, false, false;
      expectedFailures, dumpRanges := [], [];
    }

    /** The two fail-match loops: Reporter::expect_fail per letter. */
    method ExpectFailures(values: seq<string>) returns (failure: Option<CliError>)
      modifies this
      ensures Outcome(expectedFailures, failure) == ExpectFailMatch(old(expectedFailures), values)
      ensures Settings() == old(Settings()).(expected := expectedFailures)
    {
      var i := 0;
      while i < |values|
        invariant 0 <= i <= |values|
        invariant ExpectFailMatch(expectedFailures, values[i..]) == ExpectFailMatch(old(expectedFailures), values)
        invariant Settings() == old(Settings()).(expected := expectedFailures)
      {
        var value := values[i];
        assert values[i..] == [value[0..]] + values[i + 1..];
        var y := 0;
        while y < |value|
          invariant 0 <= y <= |value|
          invariant ExpectFailMatch(expectedFailures, [value[y..]] + values[i + 1..])
                 == ExpectFailMatch(old(expectedFailures), values)
          invariant Settings() == old(Settings()).(expected := expectedFailures)
        {
          var reason := FailReasonFromChar(value[y]);
          assert ([value[y..]] + values[i + 1..])[0] == value[y..];
          assert ([value[y..]] + values[i + 1..])[1..] == values[i + 1..];
          if reason.None? {
            return Some(UnknownFailCondition(value[y]));
          }
          expectedFailures := expectedFailures + [reason.value];
          assert value[y..][1..] == value[y + 1..];
          y := y + 1;
        }
        assert ([value[y..]] + values[i + 1..])[1..] == values[i + 1..];
        i := i + 1;
      }
      return None;
    }

    /** The dump-range loop: Reporter::add_dump_range per argument. */
    method AddRanges(args: seq<string>, symtab: Option<SymbolTable>, num: NumberSyntax) returns (failure: Option<CliError>)
      modifies this
      ensures Outcome(dumpRanges, failure) == AddDumpRanges(old(dumpRanges), args, symtab, num)
      ensures Settings() == old(Settings()).(dumpRanges := dumpRanges)
    {
      var i := 0;
      while i < |args|
        invariant 0 <= i <= |args|
        invariant AddDumpRanges(dumpRanges, args[i..], symtab, num) == AddDumpRanges(old(dumpRanges), args, symtab, num)
        invariant Settings() == old(Settings()).(dumpRanges := dumpRanges)
      {
        var range := ParseDumpRange(args[i], symtab, num);
        assert args[i..][1..] == args[i + 1..];
        if range.Failure? {
          return Some(range.error);
        }
        dumpRanges := dumpRanges + [range.value];
        i := i + 1;
      }
      return None;
    }

    /** The switches, fail-match and expect-fail part of configure_reporter. */
    method SetExpectations(cl: CommandLine) returns (failure: Option<CliError>)
      modifies this
      ensures Outcome(Settings(), failure) == ApplyExpectations(old(Settings()), cl)
    {
      if IsSet(cl, "dump-registers") { regsReporting := true; }
      if IsSet(cl, "dump-cache-stats") { cacheStatsReporting := true; }
      if IsSet(cl, "dump-cycles") { cyclesReporting := true; }

      failure := ExpectFailures(Values(cl, "fail-match"));
      if failure.Some? { return; }
      if IsSet(cl, "expect-fail") && !IsSet(cl, "fail-match") {
        expectedFailures := expectedFailures + [FailAny];
      }
    }

    /** configure_reporter: stops at the first diagnostic. */
    method Configure(cl: CommandLine, symtab: Option<SymbolTable>, num: NumberSyntax) returns (failure: Option<CliError>)
      modifies this
      ensures Outcome(Settings(), failure) == ApplyReporterOptions(old(Settings()), cl, symtab, num)
    {
      failure := SetExpectations(cl);
      if failure.Some? { return; }
      failure := AddRanges(Values(cl, "dump-range"), symtab, num);
    }
  }
}
