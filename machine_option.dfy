/** The machine options: the executable, the pipeline switches, the
 *  hazard unit, the memory timings, both caches and the operating-system
 *  emulation (configure_machine and parse_u32_option in src/cli/main.cpp). */
module MachineOption {
  import opened Cli
  import opened Text
  import opened CacheOption

  /** The hazard-unit kinds the usage text lists. */
  datatype HazardUnit = NoHazardUnit | Stall | StallForward

  function HazardUnitName(h: HazardUnit): string {
    match h
    case NoHazardUnit => "none"
    case Stall => "stall"
    case StallForward => "forward"
  }

  /** The hazard-unit kind a (lower-cased) name selects. */
  function HazardUnitFromName(name: string): (r: Option<HazardUnit>)
    ensures forall h :: r == Some(h) <==> name == HazardUnitName(h)
  {
    if name == "none" then Some(NoHazardUnit)
    else if name == "stall" then Some(Stall)
    else if name == "forward" then Some(StallForward)
    else None
  }

  /** parse_u32_option: None when the option is absent (the setting is
   *  left alone), the last value when it parses, a diagnostic otherwise. */
  function ParseU32Option(values: seq<string>, option: string, num: NumberSyntax): (r: Result<Option<u32>>)
    ensures values == [] <==> r == Success(None)
    ensures values != [] && r.Success? ==> r.value == num.toUInt(Last(values))
    ensures values != [] ==> (r.Failure? <==> num.toUInt(Last(values)).None?)
    ensures r.Failure? ==> r.error == NotUnsigned(option)
  {
    if values == [] then Success(None)
    else
      match num.toUInt(Last(values))
      case Some(v) => Success(Some(v))
      case None => Failure(NotUnsigned(option))
  }

  /** Only the last value given to a numeric option is parsed. */
  lemma U32LastValueWins(earlier: seq<string>, value: string, option: string, num: NumberSyntax)
    ensures ParseU32Option(earlier + [value], option, num) == ParseU32Option([value], option, num)
  {
    assert Last(earlier + [value]) == value;
  }

  /** The fields of MachineConfig that configure_machine sets. */
  datatype MachineSettings = MachineSettings(
    elf: string,
    delaySlot: bool,
    pipelined: bool,
    hazardUnit: HazardUnit,
    readTime: u32,
    writeTime: u32,
    burstTime: u32,
    dataCache: CacheSettings,
    programCache: CacheSettings,
    osemuEnable: bool,
    osemuKnownSyscallStop: bool,
    osemuFsRoot: string)

  /** The value an optional numeric option leaves in a setting. */
  function Timing(values: seq<string>, current: u32, num: NumberSyntax): u32 {
    if values == [] then current else num.toUInt(Last(values)).GetOr(current)
  }

  /** The three setters parse_u32_option is called with. */
  datatype TimingSetter = ReadTime | WriteTime | BurstTime

  function TimingOption(t: TimingSetter): string {
    match t
    case ReadTime => "read-time"
    case WriteTime => "write-time"
    case BurstTime => "burst-time"
  }

  function WithTiming(m: MachineSettings, t: TimingSetter, v: u32): MachineSettings {
    match t
    case ReadTime => m.(readTime := v)
    case WriteTime => m.(writeTime := v)
    case BurstTime => m.(burstTime := v)
  }

  function TimingOf(m: MachineSettings, t: TimingSetter): u32 {
    match t
    case ReadTime => m.readTime
    case WriteTime => m.writeTime
    case BurstTime => m.burstTime
  }

  /** The timing option is absent, or its last value is an unsigned
   *  32-bit number. */
  predicate TimingParses(cl: CommandLine, t: TimingSetter, num: NumberSyntax) {
    ParseU32Option(Values(cl, TimingOption(t)), TimingOption(t), num).Success?
  }

  /** The emulated file-system root after configure_machine: the last
   *  `--os-fs-root` value when it is not empty, the current one otherwise. */
  function FsRoot(cl: CommandLine, current: string): (root: string)
    ensures Values(cl, "os-fs-root") != [] && Last(Values(cl, "os-fs-root")) != "" ==>
              root == Last(Values(cl, "os-fs-root"))
    ensures Values(cl, "os-fs-root") == [] || Last(Values(cl, "os-fs-root")) == "" ==> root == current
  {
    var roots := Values(cl, "os-fs-root");
    if roots != [] && Last(roots) != "" then Last(roots) else current
  }

  /** parse_u32_option with its setter: the settings it leaves behind. */
  function ApplyU32Option(m: MachineSettings, t: TimingSetter, cl: CommandLine, num: NumberSyntax)
    : (r: Outcome<MachineSettings>)
    ensures r.failure.None? ==> r.state == WithTiming(m, t, Timing(Values(cl, TimingOption(t)), TimingOf(m, t), num))
    ensures r.failure.Some? ==> r.state == m && r.failure == Some(NotUnsigned(TimingOption(t)))
    ensures r.failure.Some? <==> !TimingParses(cl, t, num)
  {
    match ParseU32Option(Values(cl, TimingOption(t)), TimingOption(t), num)
    case Failure(e) => Outcome(m, Some(e))
    case Success(v) => Outcome(if v.Some? then WithTiming(m, t, v.value) else m, None)
  }

  /** The three memory timings, in the order configure_machine sets them. */
  function ApplyTimings(m: MachineSettings, cl: CommandLine, num: NumberSyntax): (r: Outcome<MachineSettings>)
    ensures r.state.elf == m.elf && r.state.delaySlot == m.delaySlot && r.state.pipelined == m.pipelined
    ensures r.state.hazardUnit == m.hazardUnit
    ensures r.state.dataCache == m.dataCache && r.state.programCache == m.programCache
    ensures r.state.osemuEnable == m.osemuEnable && r.state.osemuKnownSyscallStop == m.osemuKnownSyscallStop
    ensures r.state.osemuFsRoot == m.osemuFsRoot
    ensures r.failure.None? ==>
              r.state.readTime == Timing(Values(cl, "read-time"), m.readTime, num)
              && r.state.writeTime == Timing(Values(cl, "write-time"), m.writeTime, num)
              && r.state.burstTime == Timing(Values(cl, "burst-time"), m.burstTime, num)
    ensures r.failure.None? <==>
              TimingParses(cl, ReadTime, num) && TimingParses(cl, WriteTime, num) && TimingParses(cl, BurstTime, num)
    ensures !TimingParses(cl, ReadTime, num) ==> r.failure == Some(NotUnsigned("read-time"))
    ensures TimingParses(cl, ReadTime, num) && !TimingParses(cl, WriteTime, num) ==>
              r.failure == Some(NotUnsigned("write-time"))
    ensures TimingParses(cl, ReadTime, num) && TimingParses(cl, WriteTime, num) && !TimingParses(cl, BurstTime, num) ==>
              r.failure == Some(NotUnsigned("burst-time"))
  {
    var read := ApplyU32Option(m, ReadTime, cl, num);
    if read.failure.Some? then read
    else
      var write := ApplyU32Option(read.state, WriteTime, cl, num);
      if write.failure.Some? then write
      else ApplyU32Option(write.state, BurstTime, cl, num)
  }

  /** The steps of configure_machine after the timings: both caches, then
   *  the operating-system emulation. */
  function ApplyCachesAndOsemu(m: MachineSettings, cl: CommandLine, num: NumberSyntax): (r: Outcome<MachineSettings>)
    ensures r.state.elf == m.elf && r.state.delaySlot == m.delaySlot && r.state.pipelined == m.pipelined
    ensures r.state.hazardUnit == m.hazardUnit
    ensures r.state.readTime == m.readTime && r.state.writeTime == m.writeTime && r.state.burstTime == m.burstTime
    ensures r.failure.None? ==>
              r.state.dataCache == ApplyCacheSpec(m.dataCache, Values(cl, "d-cache"), "data", num).state
              && r.state.programCache == ApplyCacheSpec(m.programCache, Values(cl, "i-cache"), "instruction", num).state
              && r.state.osemuEnable == IsSet(cl, "os-emulation")
              && !r.state.osemuKnownSyscallStop
    ensures r.state.osemuFsRoot == m.osemuFsRoot
            || (Values(cl, "os-fs-root") != [] && r.state.osemuFsRoot == Last(Values(cl, "os-fs-root")) != "")
    ensures r.failure.None? ==> r.state.osemuFsRoot == FsRoot(cl, m.osemuFsRoot)
    ensures var d := ApplyCacheSpec(m.dataCache, Values(cl, "d-cache"), "data", num);
            var i := ApplyCacheSpec(m.programCache, Values(cl, "i-cache"), "instruction", num);
            r.failure == if d.failure.Some? then d.failure else i.failure
  {
    var d := ApplyCacheSpec(m.dataCache, Values(cl, "d-cache"), "data", num);
    var m := m.(dataCache := d.state);
    if d.failure.Some? then Outcome(m, d.failure)
    else
      var i := ApplyCacheSpec(m.programCache, Values(cl, "i-cache"), "instruction", num);
      var m := m.(programCache := i.state);
      if i.failure.Some? then Outcome(m, i.failure)
      else
        Outcome(m.(osemuEnable := IsSet(cl, "os-emulation"),
                   osemuKnownSyscallStop := false,
                   osemuFsRoot := FsRoot(cl, m.osemuFsRoot)),
                None)
  }

  /** The positional argument, the pipeline switches and the hazard unit. */
  function ApplyCore(m: MachineSettings, cl: CommandLine): (r: Outcome<MachineSettings>)
    requires |cl.positional| == 1
    ensures r.state == m.(elf := cl.positional[0], delaySlot := !IsSet(cl, "no-delay-slot"),
                          pipelined := IsSet(cl, "pipelined"), hazardUnit := r.state.hazardUnit)
    ensures Values(cl, "hazard-unit") == [] ==> r == Outcome(r.state, None) && r.state.hazardUnit == m.hazardUnit
    ensures Values(cl, "hazard-unit") != [] ==>
              var name := LowerString(Last(Values(cl, "hazard-unit")));
              (HazardUnitFromName(name).None? <==> r.failure == Some(UnknownHazardUnit))
              && (r.failure.None? ==> HazardUnitName(r.state.hazardUnit) == name)
    ensures r.failure.Some? ==> r.failure == Some(UnknownHazardUnit)
  {
    var m := m.(elf := cl.positional[0],
                delaySlot := !IsSet(cl, "no-delay-slot"),
                pipelined := IsSet(cl, "pipelined"));
    var hazard := Values(cl, "hazard-unit");
    if hazard == [] then Outcome(m, None)
    else
      match HazardUnitFromName(LowerString(Last(hazard)))
      case None => Outcome(m, Some(UnknownHazardUnit))
      case Some(h) => Outcome(m.(hazardUnit := h), None)
  }

  /** The hazard-unit option is absent, or its last value names a unit. */
  predicate HazardAccepted(cl: CommandLine) {
    Values(cl, "hazard-unit") == [] || HazardUnitFromName(LowerString(Last(Values(cl, "hazard-unit")))).Some?
  }

  /** configure_machine reports nothing: one positional argument, a known
   *  hazard unit, three valid timings and two valid cache specifications. */
  predicate MachineAccepts(m: MachineSettings, cl: CommandLine, num: NumberSyntax) {
    |cl.positional| == 1
    && HazardAccepted(cl)
    && TimingParses(cl, ReadTime, num) && TimingParses(cl, WriteTime, num) && TimingParses(cl, BurstTime, num)
    && ApplyCacheSpec(m.dataCache, Values(cl, "d-cache"), "data", num).failure.None?
    && ApplyCacheSpec(m.programCache, Values(cl, "i-cache"), "instruction", num).failure.None?
  }

  /** configure_machine: the machine settings after decoding the command
   *  line, and the first diagnostic. */
  function ApplyMachineOptions(m: MachineSettings, cl: CommandLine, num: NumberSyntax): (r: Outcome<MachineSettings>)
    ensures |cl.positional| != 1 ==> r == Outcome(m, Some(SingleElfRequired))
    ensures |cl.positional| == 1 ==>
              r.state.elf == cl.positional[0]
              && r.state.delaySlot == !IsSet(cl, "no-delay-slot")
              && r.state.pipelined == IsSet(cl, "pipelined")
    ensures |cl.positional| == 1 && Values(cl, "hazard-unit") != [] ==>
              var name := LowerString(Last(Values(cl, "hazard-unit")));
              (HazardUnitFromName(name).None? <==> r.failure == Some(UnknownHazardUnit))
              && (r.failure.None? ==> HazardUnitName(r.state.hazardUnit) == name)
    ensures r.failure.None? ==>
              r.state.readTime == Timing(Values(cl, "read-time"), m.readTime, num)
              && r.state.writeTime == Timing(Values(cl, "write-time"), m.writeTime, num)
              && r.state.burstTime == Timing(Values(cl, "burst-time"), m.burstTime, num)
    ensures r.failure.None? ==>
              r.state.dataCache == ApplyCacheSpec(m.dataCache, Values(cl, "d-cache"), "data", num).state
              && r.state.programCache == ApplyCacheSpec(m.programCache, Values(cl, "i-cache"), "instruction", num).state
              && r.state.osemuEnable == IsSet(cl, "os-emulation")
              && !r.state.osemuKnownSyscallStop
    ensures r.state.osemuFsRoot == m.osemuFsRoot
            || (Values(cl, "os-fs-root") != [] && r.state.osemuFsRoot == Last(Values(cl, "os-fs-root")) != "")
    ensures r.failure.None? ==> r.state.osemuFsRoot == FsRoot(cl, m.osemuFsRoot)
    ensures r.failure.None? <==> MachineAccepts(m, cl, num)
    ensures Values(cl, "hazard-unit") == [] ==> r.state.hazardUnit == m.hazardUnit
    ensures |cl.positional| == 1 && HazardAccepted(cl) && !TimingParses(cl, ReadTime, num) ==>
              r.failure == Some(NotUnsigned("read-time"))
    ensures |cl.positional| == 1 && HazardAccepted(cl)
            && TimingParses(cl, ReadTime, num) && !TimingParses(cl, WriteTime, num) ==>
              r.failure == Some(NotUnsigned("write-time"))
    ensures |cl.positional| == 1 && HazardAccepted(cl)
            && TimingParses(cl, ReadTime, num) && TimingParses(cl, WriteTime, num) && !TimingParses(cl, BurstTime, num) ==>
              r.failure == Some(NotUnsigned("burst-time"))
    ensures |cl.positional| == 1 && HazardAccepted(cl)
            && TimingParses(cl, ReadTime, num) && TimingParses(cl, WriteTime, num) && TimingParses(cl, BurstTime, num) ==>
              var d := ApplyCacheSpec(m.dataCache, Values(cl, "d-cache"), "data", num);
              var i := ApplyCacheSpec(m.programCache, Values(cl, "i-cache"), "instruction", num);
              r.failure == if d.failure.Some? then d.failure else i.failure
  {
    if |cl.positional| != 1 then Outcome(m, Some(SingleElfRequired))
    else
      var core := ApplyCore(m, cl);
      if core.failure.Some? then core
      else
        var timed := ApplyTimings(core.state, cl, num);
        if timed.failure.Some? then timed
        else ApplyCachesAndOsemu(timed.state, cl, num)
  }

  /** MachineConfig: the machine's configuration, changed through setters;
   *  it owns the two cache configurations. */
  class MachineConfig {
    var elf: string
    var delaySlot: bool
    var pipelined: bool
    var hazardUnit: HazardUnit
    var readTime: u32
    var writeTime: u32
    var burstTime: u32
    const dataCache: CacheConfig
    const programCache: CacheConfig
    var osemuEnable: bool
    var osemuKnownSyscallStop: bool
    var osemuFsRoot: string

    ghost predicate Valid()
      reads this
    {
      dataCache != programCache
    }

    function Settings(): MachineSettings
      reads this, dataCache, programCache
    {
      MachineSettings(elf, delaySlot, pipelined, hazardUnit, readTime, writeTime, burstTime,
                      dataCache.Settings(), programCache.Settings(),
                      osemuEnable, osemuKnownSyscallStop, osemuFsRoot)
    }

    constructor (s: MachineSettings)
      ensures Valid() && fresh(dataCache) && fresh(programCache)
      ensures Settings() == s
    {
      elf := s.elf;
      delaySlot := s.delaySlot;
      pipelined := s.pipelined;
      hazardUnit := s.hazardUnit;
      readTime := s.readTime;
      writeTime := s.writeTime;
      burstTime := s.burstTime;
      dataCache := new CacheConfig(s.dataCache);
      programCache := new CacheConfig(s.programCache);
      osemuEnable := s.osemuEnable;
      osemuKnownSyscallStop := s.osemuKnownSyscallStop;
      osemuFsRoot := s.osemuFsRoot;
    }

    /** parse_u32_option: sets one timing from the last value of its
     *  option, if any. */
    method SetTiming(t: TimingSetter, cl: CommandLine, num: NumberSyntax) returns (failure: Option<CliError>)
      modifies this
      ensures Outcome(Settings(), failure) == ApplyU32Option(old(Settings()), t, cl, num)
    {
      var values := Values(cl, TimingOption(t));
      if values != [] {
        var value := num.toUInt(values[|values| - 1]);
        if value.Some? {
          match t
          case ReadTime => readTime := value.value;
          case WriteTime => writeTime := value.value;
          case BurstTime => burstTime := value.value;
        } else {
          return Some(NotUnsigned(TimingOption(t)));
        }
      }
      return None;
    }

    /** The three parse_u32_option calls of configure_machine. */
    method SetTimings(cl: CommandLine, num: NumberSyntax) returns (failure: Option<CliError>)
      modifies this
      ensures Outcome(Settings(), failure) == ApplyTimings(old(Settings()), cl, num)
    {
      failure := SetTiming(ReadTime, cl, num);
      if failure.Some? { return; }
      failure := SetTiming(WriteTime, cl, num);
      if failure.Some? { return; }
      failure := SetTiming(BurstTime, cl, num);
    }

    /** The configure_cache calls and the emulation settings of
     *  configure_machine. */
    method ConfigureCachesAndOsemu(cl: CommandLine, num: NumberSyntax) returns (failure: Option<CliError>)
      requires Valid()
      modifies this, dataCache, programCache
      ensures Outcome(Settings(), failure) == ApplyCachesAndOsemu(old(Settings()), cl, num)
    {
      failure := dataCache.Configure(Values(cl, "d-cache"), "data", num);
      if failure.Some? { return; }
      failure := programCache.Configure(Values(cl, "i-cache"), "instruction", num);
      if failure.Some? { return; }

      osemuEnable := IsSet(cl, "os-emulation");
      osemuKnownSyscallStop := false;
      var roots := Values(cl, "os-fs-root");
      if |roots| >= 1 {
        var root := roots[|roots| - 1];
        if |root| > 0 {
          osemuFsRoot := root;
        }
      }
    }

    /** The ELF name, the pipeline switches and the hazard unit. */
    method SetCore(cl: CommandLine) returns (failure: Option<CliError>)
      requires Valid() && |cl.positional| == 1
      modifies this
      ensures Valid()
      ensures Outcome(Settings(), failure) == ApplyCore(old(Settings()), cl)
    {
      elf := cl.positional[0];
      delaySlot := !IsSet(cl, "no-delay-slot");
      pipelined := IsSet(cl, "pipelined");

      var hazard := Values(cl, "hazard-unit");
      if hazard != [] {
        var kind := HazardUnitFromName(LowerString(hazard[|hazard| - 1]));
        if kind.None? {
          return Some(UnknownHazardUnit);
        }
        hazardUnit := kind.value;
      }
      return None;
    }

    /** configure_machine: decodes the command line into this configuration
     *  and its caches; stops at the first diagnostic. */
    method Configure(cl: CommandLine, num: NumberSyntax) returns (failure: Option<CliError>)
      requires Valid()
      modifies this, dataCache, programCache
      ensures Outcome(Settings(), failure) == ApplyMachineOptions(old(Settings()), cl, num)
    {
      if |cl.positional| != 1 {
        return Some(SingleElfRequired);
      }
      failure := SetCore(cl);
      if failure.Some? { return; }
      failure := SetTimings(cl, num);
      if failure.Some? { return; }
      failure := ConfigureCachesAndOsemu(cl, num);
    }
  }
}
