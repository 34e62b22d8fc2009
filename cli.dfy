/** Shared vocabulary of the command-line front end: the parsed command
 *  line, the diagnostics it can report, fixed-width integers and the
 *  number parsers the decoder relies on. */
module Cli {

  datatype Option<T> = None | Some(value: T) {
    function GetOr(default: T): T {
      match this
      case Some(v) => v
      case None => default
    }
  }

  datatype Result<T> = Success(value: T) | Failure(error: CliError)

  const TWO_32: int := 0x1_0000_0000
  const TWO_64: int := 0x1_0000_0000_0000_0000

  type u32 = x: int | 0 <= x < 0x1_0000_0000
  type u64 = x: int | 0 <= x < 0x1_0000_0000_0000_0000
  type i32 = x: int | -0x8000_0000 <= x < 0x8000_0000

  /** Conversion of any integer to a 32-bit unsigned one, as C++ does
   *  when a `long` is passed where an `unsigned` is expected. */
  function ToU32(x: int): (r: u32)
    ensures (x - r) % TWO_32 == 0
    ensures 0 <= x < TWO_32 ==> r == x
  {
    x % TWO_32
  }

  /** The diagnostics of main.cpp, one per message it prints before
   *  asking the application to exit. */
  datatype CliError =
    | SingleElfRequired                    // help shown, process exits
    | UnknownHazardUnit
    | NotUnsigned(option: string)
    | CacheParameters(which: string)       // "Parameters ... cache incorrect"
    | CachePolicy(which: string)           // "Policy for ... cache is incorrect"
    | CacheZeroComponent(which: string)
    | CacheWritePolicy(which: string)
    | UnknownRegister(selector: string)
    | UnknownFailCondition(condition: char)
    | RangeStartMissing
    | RangeLengthMissing
    | RangeSpecification
    | LoadDataUnparsable                   // the number stops before the line's end
    | LoadDataThrows                       // std::stoul throws; nothing catches it

  /** The state a configuration step reached and the first diagnostic it
   *  reported, if any. The source keeps running after a diagnostic; the
   *  model stops at the first one. */
  datatype Outcome<T> = Outcome(state: T, failure: Option<CliError>)

  /** What QCommandLineParser hands to the decoder, with aliases already
   *  resolved to the long option name: options given without a value,
   *  the values given to each value option in order, and the positional
   *  arguments. */
  datatype CommandLine = CommandLine(
    flags: set<string>,
    values: map<string, seq<string>>,
    positional: seq<string>)

  /** QCommandLineParser::values: every value given to the option, in order. */
  function Values(cl: CommandLine, name: string): seq<string> {
    if name in cl.values then cl.values[name] else []
  }

  /** QCommandLineParser::isSet: the option was given at least once. */
  predicate IsSet(cl: CommandLine, name: string) {
    name in cl.flags || Values(cl, name) != []
  }

  function Last<T>(s: seq<T>): T
    requires s != []
  {
    s[|s| - 1]
  }

  /** The value std::stoul produced and how many characters it consumed. */
  datatype Prefix = Prefix(value: u64, used: nat)

  /** The number syntaxes of Qt and the C++ library, left abstract:
   *  - toLong:  QString::toLong(), 0 when the text is not a number;
   *  - toUInt:  QString::toUInt(&ok), None when ok is false;
   *  - toInt:   QString::toInt(&ok), None when ok is false;
   *  - toULong: QString::toULong(&ok, 0), None when ok is false;
   *  - stoul:   std::stoul(text, &idx, 0), None when it throws. */
  datatype NumberSyntax = NumberSyntax(
    toLong: string -> int,
    toUInt: string -> Option<u32>,
    toInt: string -> Option<i32>,
    toULong: string -> Option<u64>,
    stoul: string -> Option<Prefix>)

  /** The machine's symbol table, a partial map from name to value. */
  type SymbolTable = map<string, u64>
}
