/** The tracing options: which pipeline stages are traced and which
 *  general-purpose registers are watched (configure_tracer in
 *  src/cli/main.cpp). */
module TracerOption {
  import opened Cli

  /** The number of general-purpose registers, and of entries in the
   *  tracer's register mask. */
  const REGISTER_COUNT: nat := 32

  /** The conversion of an `int` to `size_t` (64-bit, wrapping). */
  function SizeT(v: i32): (n: nat)
    ensures n < TWO_64 && (n - v) % TWO_64 == 0
  {
    if v < 0 then v + TWO_64 else v
  }

  /** The register a trace-gp value selects, with the bound as written in
   *  the source: it admits REGISTER_COUNT itself, one past the mask. */
  function RegisterIndexAsWritten(selector: string, num: NumberSyntax): (r: Option<nat>)
    ensures r.Some? <==> num.toInt(selector).Some? && 0 <= num.toInt(selector).value <= REGISTER_COUNT
    ensures r.Some? ==> r.value == num.toInt(selector).value
  {
    match num.toInt(selector)
    case None => None
    case Some(v) => if SizeT(v) <= REGISTER_COUNT then Some(SizeT(v)) else None
  }

  /** The value "32" passes the source's bound check but names no entry
   *  of the register mask (whose indices are below REGISTER_COUNT), so
   *  `.at(32)` throws std::out_of_range; the corrected check rejects it. */
  lemma RegisterIndexAsWrittenOverruns(num: NumberSyntax)
    requires num.toInt("32") == Some(32)
    ensures RegisterIndexAsWritten("32", num).Some?
    ensures RegisterIndexAsWritten("32", num).value >= REGISTER_COUNT
    ensures RegisterIndex("32", num).None?
  {
  }

  /** The register a trace-gp value selects: a number that indexes the
   *  register mask. Negative numbers wrap to huge `size_t` values and
   *  are rejected with the rest. */
  function RegisterIndex(selector: string, num: NumberSyntax): (r: Option<nat>)
    ensures r.Some? <==> num.toInt(selector).Some? && 0 <= num.toInt(selector).value < REGISTER_COUNT
    ensures r.Some? ==> r.value == num.toInt(selector).value
  {
    match num.toInt(selector)
    case None => None
    case Some(v) => if SizeT(v) < REGISTER_COUNT then Some(SizeT(v)) else None
  }

  /** A trace-gp value configure_tracer accepts. */
  predicate ValidSelector(selector: string, num: NumberSyntax) {
    selector == "*" || RegisterIndex(selector, num).Some?
  }

  /** A trace-gp value that turns on the entry for register n. */
  predicate Selects(selector: string, n: nat, num: NumberSyntax) {
    selector == "*" || RegisterIndex(selector, num) == Some(n)
  }

  /** The trace-gp loop of configure_tracer: the register mask after
   *  applying the values in order, and the first value it rejects. */
  function MarkRegisters(regs: seq<bool>, selectors: seq<string>, num: NumberSyntax): (r: Outcome<seq<bool>>)
    requires |regs| == REGISTER_COUNT
    ensures |r.state| == REGISTER_COUNT
    decreases |selectors|
  {
    if selectors == [] then Outcome(regs, None)
    else if selectors[0] == "*" then MarkRegisters(seq(REGISTER_COUNT, _ => true), selectors[1..], num)
    else
      match RegisterIndex(selectors[0], num)
      case None => Outcome(regs, Some(UnknownRegister(selectors[0])))
      case Some(n) => MarkRegisters(regs[n := true], selectors[1..], num)
  }

  /** The register mask is decoded without a diagnostic exactly when every
   *  value is `*` or a register number; otherwise the diagnostic names
   *  the first value that is neither. */
  lemma {:induction false} MarkRegistersAccepts(regs: seq<bool>, selectors: seq<string>, num: NumberSyntax)
    requires |regs| == REGISTER_COUNT
    ensures MarkRegisters(regs, selectors, num).failure.None?
        <==> forall i :: 0 <= i < |selectors| ==> ValidSelector(selectors[i], num)
    ensures MarkRegisters(regs, selectors, num).failure.Some? ==>
              exists k :: 0 <= k < |selectors| && !ValidSelector(selectors[k], num)
                && (forall i :: 0 <= i < k ==> ValidSelector(selectors[i], num))
                && MarkRegisters(regs, selectors, num).failure == Some(UnknownRegister(selectors[k]))
    decreases |selectors|
  {
    if selectors != [] {
      var next := if selectors[0] == "*" then seq(REGISTER_COUNT, _ => true)
                  else if RegisterIndex(selectors[0], num).Some? then regs[RegisterIndex(selectors[0], num).value := true]
                  else regs;
      if ValidSelector(selectors[0], num) {
        MarkRegistersAccepts(next, selectors[1..], num);
        assert MarkRegisters(regs, selectors, num) == MarkRegisters(next, selectors[1..], num);
        assert forall i :: 1 <= i < |selectors| ==> selectors[i] == selectors[1..][i - 1];
        if MarkRegisters(next, selectors[1..], num).failure.Some? {
          var k :| 0 <= k < |selectors[1..]| && !ValidSelector(selectors[1..][k], num)
                   && (forall i :: 0 <= i < k ==> ValidSelector(selectors[1..][i], num))
                   && MarkRegisters(next, selectors[1..], num).failure == Some(UnknownRegister(selectors[1..][k]));
          assert !ValidSelector(selectors[k + 1], num);
        }
      } else {
        assert MarkRegisters(regs, selectors, num).failure == Some(UnknownRegister(selectors[0]));
      }
    }
  }

  /** After a decoding without diagnostic, the entry of register n is on
   *  exactly when it was on before or some value selects it. */
  lemma {:induction false} MarkRegistersSelects(regs: seq<bool>, selectors: seq<string>, num: NumberSyntax, n: nat)
    requires |regs| == REGISTER_COUNT && n < REGISTER_COUNT
    requires MarkRegisters(regs, selectors, num).failure.None?
    ensures MarkRegisters(regs, selectors, num).state[n]
        <==> regs[n] || exists i :: 0 <= i < |selectors| && Selects(selectors[i], n, num)
    decreases |selectors|
  {
    if selectors != [] {
      var rest := selectors[1..];
      assert forall i :: 1 <= i < |selectors| ==> selectors[i] == rest[i - 1];
      assert forall i :: 0 <= i < |rest| ==> rest[i] == selectors[i + 1];
      if selectors[0] == "*" {
        MarkRegistersSelects(seq(REGISTER_COUNT, _ => true), rest, num, n);
        assert Selects(selectors[0], n, num);
      } else {
        var k := RegisterIndex(selectors[0], num).value;
        MarkRegistersSelects(regs[k := true], rest, num, n);
        assert Selects(selectors[0], n, num) <==> k == n;
      }
    }
  }

  /** The stage and register flags of the tracer. */
  datatype TraceFlags = TraceFlags(
    fetch: bool, decode: bool, memory: bool, writeback: bool, pc: bool, regsGp: bool)

  /** The flag part of configure_tracer. Flags are only ever turned on;
   *  the stage flags other than fetch need the pipelined option; and, as
   *  written, trace-execute turns on the fetch flag. */
  function SetTraceFlags(f: TraceFlags, cl: CommandLine): (r: TraceFlags)
    ensures (f.fetch ==> r.fetch) && (f.decode ==> r.decode) && (f.memory ==> r.memory)
            && (f.writeback ==> r.writeback) && (f.pc ==> r.pc) && (f.regsGp ==> r.regsGp)
    ensures !IsSet(cl, "pipelined") ==>
              r.decode == f.decode && r.memory == f.memory && r.writeback == f.writeback
              && r.fetch == (f.fetch || IsSet(cl, "trace-fetch"))
    ensures IsSet(cl, "pipelined") ==>
              r.decode == (f.decode || IsSet(cl, "trace-decode"))
              && r.memory == (f.memory || IsSet(cl, "trace-memory"))
              && r.writeback == (f.writeback || IsSet(cl, "trace-writeback"))
              && r.fetch == (f.fetch || IsSet(cl, "trace-fetch") || IsSet(cl, "trace-execute"))
    ensures r.pc == (f.pc || IsSet(cl, "trace-pc")) && r.regsGp == (f.regsGp || IsSet(cl, "trace-gp"))
  {
    var pipelined := IsSet(cl, "pipelined");
    TraceFlags(
      fetch := f.fetch || IsSet(cl, "trace-fetch") || (pipelined && IsSet(cl, "trace-execute")),
      decode := f.decode || (pipelined && IsSet(cl, "trace-decode")),
      memory := f.memory || (pipelined && IsSet(cl, "trace-memory")),
      writeback := f.writeback || (pipelined && IsSet(cl, "trace-writeback")),
      pc := f.pc || IsSet(cl, "trace-pc"),
      regsGp := f.regsGp || IsSet(cl, "trace-gp"))
  }

  /** The Tracer's configuration: its flags and its register mask. */
  class Tracer {
    var traceFetch: bool
    var traceDecode: bool
    var traceMemory: bool
    var traceWriteback: bool
    var tracePc: bool
    var traceRegsGp: bool
    const regsToTrace: array<bool>

    ghost predicate Valid()
      reads this
    {
      regsToTrace.Length == REGISTER_COUNT
    }

    function Flags(): TraceFlags
      reads this
    {
      TraceFlags(traceFetch, traceDecode, traceMemory, traceWriteback, tracePc, traceRegsGp)
    }

    constructor ()
      ensures Valid() && fresh(regsToTrace)
      ensures Flags() == TraceFlags(false, false, false, false, false, false)
      ensures regsToTrace[..] == seq(REGISTER_COUNT, _ => false)
    {
      traceFetch, traceDecode, traceMemory, traceWriteback := false, false, false, false;
      tracePc, traceRegsGp := false, false;
      regsToTrace := new bool[REGISTER_COUNT](_ => false);
    }

    /** The flag part of configure_tracer. */
    method SetFlags(cl: CommandLine)
      modifies this
      ensures Flags() == SetTraceFlags(old(Flags()), cl)
    {
      if IsSet(cl, "trace-fetch") { traceFetch := true; }
      if IsSet(cl, "pipelined") {
        if IsSet(cl, "trace-decode") { traceDecode := true; }
        if IsSet(cl, "trace-execute") { traceFetch := true; }
        if IsSet(cl, "trace-memory") { traceMemory := true; }
        if IsSet(cl, "trace-writeback") { traceWriteback := true; }
      }
      if IsSet(cl, "trace-pc") { tracePc := true; }
      if IsSet(cl, "trace-gp") { traceRegsGp := true; }
    }

    /** The trace-gp loop of configure_tracer: applies the values in order
     *  to the register mask; stops at the first rejected value. */
    method MarkSelected(selectors: seq<string>, num: NumberSyntax) returns (failure: Option<CliError>)
      requires Valid()
      modifies regsToTrace
      ensures Outcome(regsToTrace[..], failure) == MarkRegisters(old(regsToTrace[..]), selectors, num)
    {
      var i := 0;
      while i < |selectors|
        invariant 0 <= i <= |selectors|
        invariant MarkRegisters(regsToTrace[..], selectors[i..], num)
               == MarkRegisters(old(regsToTrace[..]), selectors, num)
      {
        if selectors[i] == "*" {
          forall k | 0 <= k < regsToTrace.Length {
            regsToTrace[k] := true;
          }
          assert regsToTrace[..] == seq(REGISTER_COUNT, _ => true);
        } else {
          var n := RegisterIndex(selectors[i], num);
          if n.None? {
            return Some(UnknownRegister(selectors[i]));
          }
          regsToTrace[n.value] := true;
        }
        assert selectors[i..][1..] == selectors[i + 1..];
        i := i + 1;
      }
      return None;
    }

    /** configure_tracer: the flags, then the register mask. */
    method Configure(cl: CommandLine, num: NumberSyntax) returns (failure: Option<CliError>)
      requires Valid()
      modifies this, regsToTrace
      ensures Flags() == SetTraceFlags(old(Flags()), cl)
      ensures Outcome(regsToTrace[..], failure) == MarkRegisters(old(regsToTrace[..]), Values(cl, "trace-gp"), num)
    {
      SetFlags(cl);
      failure := MarkSelected(Values(cl, "trace-gp"), num);
    }
  }
}
