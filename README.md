# qtrvsim command-line decoding, modelled in Dafny

This project models how the qtrvsim command-line front end
(`src/cli/main.cpp`) turns the parsed command line into simulator
configuration. It covers:

- the machine configuration: the ELF argument, the delay-slot and pipeline switches, the hazard unit, the memory timings, the data and instruction caches, and the OS-emulation root;
- the `--d-cache` / `--i-cache` specification strings (`POLICY,SETS,BLOCK,ASSOC[,WRITE]`);
- the tracer's stage flags and its `--trace-gp` register mask;
- the reporter's `--fail-match`, `--expect-fail` and `--dump-range` options;
- `--load-range`, which writes the numbers of a text file into data memory as 32-bit words.

The parsed command line is a value (`Cli.CommandLine`). It holds the flags, the values of each option in order, and the positional arguments.

Each diagnostic that the source prints before `QCoreApplication::exit(1)` becomes a `Cli.CliError`. That call is made before the event loop runs, so it does not stop the program. The model stops at the first diagnostic and records it in an `Outcome` next to the state reached. The source would go on decoding after that point; the model does not.

The number syntaxes of Qt and the C++ library are abstract functions, held in a `Cli.NumberSyntax`:

- `QString::toLong`
- `QString::toUInt`
- `QString::toInt`
- `QString::toULong(&ok, 0)`
- `std::stoul`

Where the source keeps an object and updates its fields, the model has a class:

- `CacheConfig`
- `MachineConfig`
- `Tracer`, whose register mask is an array
- `Reporter`
- `MemoryBus`

Each method of these classes is proved equal to a pure function of the old state. The properties are proved about those functions.

Modules:

- `Cli`: shared types, diagnostics and the command line.
- `Text`: the string operations the decoder uses.
- `CacheOption`: configure_cache.
- `MachineOption`: parse_u32_option and configure_machine.
- `TracerOption`: configure_tracer.
- `RangeArgument`: the `START,LENGTH,FNAME` and `START,FNAME` arguments.
- `ReporterOption`: configure_reporter.
- `LoadRange`: load_ranges.

The `--fail-match` usage text (src/cli/main.cpp:58-63) lists the letters I, A, O and J. The code decodes only `i`, in either case, and reports every other letter as an unknown fail condition. The model follows the code.

## Model

| member | source | states |
|---|---|---|
| Cli.ToU32 | src/cli/main.cpp:115-117 | storing a long into an unsigned 32-bit field keeps its value modulo 2^32, and keeps every value that fits |
| Text.Split | src/cli/main.cpp:86 | QString::split yields at least one piece, and no piece contains the separator |
| Text.JoinSplit | src/cli/main.cpp:86 | rejoining the pieces of a split with the separator gives the text back |
| Text.SplitJoin | src/cli/main.cpp:86 | splitting separator-free pieces joined by the separator gives the same pieces back |
| Text.IndexOf | src/cli/main.cpp:256-261 | indexOf finds the first occurrence at or after the start position, and reports -1 only when there is none; the same call finds the comma of a load-range argument at line 380 |
| Text.LastNonBlank | src/cli/main.cpp:401-404 | find_last_not_of finds the last non-blank character, and npos holds exactly for a blank line |
| Text.FirstNonBlank | src/cli/main.cpp:407 | find_first_not_of finds the first non-blank character, and npos holds exactly for a blank line |
| Text.Trim | src/cli/main.cpp:407-409 | the trimmed token is non-empty, is a slice of the line, starts and ends with non-blank characters, and has only blanks around it |
| CacheOption.PolicyFromName | src/cli/main.cpp:97-106 | a replacement-policy keyword is decoded exactly when its lower-case form is random, lru or lfu |
| CacheOption.WritePolicyFromName | src/cli/main.cpp:124-136 | a write-policy keyword is decoded exactly when its lower-case form is wb, wt, wtna or wta; wt and wtna both mean write-through without allocation |
| CacheOption.ApplyGeometry | src/cli/main.cpp:109-137 | It succeeds exactly when there are at least three pieces, none of the first three numbers is zero, and any fourth piece is a known write-policy keyword. Fewer than three pieces is the parameters error, and nothing changes. Otherwise the set count, block size and associativity are the first three pieces read by toLong and stored as unsigned 32-bit values. A zero among them is the zero-component error. After that, an unknown fourth piece is the write-policy error. On success, the write policy is the fourth piece's, or unchanged when there is none |
| CacheOption.ApplyCacheSpec | src/cli/main.cpp:83-138 | No value leaves the cache untouched; otherwise the cache is enabled. Fewer than three pieces is the parameters error, and an empty first piece or an unknown keyword is the policy error. A keyword followed by only two pieces is the parameters error. When the first piece is accepted, a zero among the geometry pieces after it is the zero-component error, and after that an unknown write-policy piece is the write-policy error. It succeeds exactly when the first piece is a number or a known keyword and the remaining geometry pieces are accepted. The geometry and write policy then come from the pieces after any keyword, and a keyword sets the replacement policy. Every diagnostic names the cache |
| CacheOption.CacheLastValueWins | src/cli/main.cpp:86 | only the last value of a cache option is decoded |
| CacheOption.CacheSpecRoundTrip | src/cli/main.cpp:83-138 | a specification written as optional policy, sizes and optional write policy decodes back to exactly those settings, with the cache enabled |
| CacheOption.CacheIgnoresTrailingPieces | src/cli/main.cpp:115-137 | pieces after the write policy are ignored |
| CacheOption.CacheConfig.constructor | src/cli/main.cpp:185-186 | a cache configuration holds the given settings |
| CacheOption.CacheConfig.Configure | src/cli/main.cpp:83-138 | configure_cache updates the configuration in place to the decoded settings and reports the first diagnostic |
| MachineOption.HazardUnitFromName | src/cli/main.cpp:173-179 | a hazard-unit name is decoded exactly when it is none, stall or forward |
| MachineOption.ParseU32Option | src/cli/main.cpp:140-160 | no value means nothing to set; otherwise the last value is decoded, and a value that is not an unsigned 32-bit number is an error naming the option |
| MachineOption.U32LastValueWins | src/cli/main.cpp:149 | only the last value of a u32 option counts |
| MachineOption.ApplyU32Option | src/cli/main.cpp:140-160 | It fails exactly when the option's last value is not an unsigned 32-bit number. A failure leaves the settings untouched and names the option; a success sets exactly that one timing |
| MachineOption.ApplyTimings | src/cli/main.cpp:181-183 | It succeeds exactly when all three timings parse; the diagnostic names the first of read, write and burst time that does not. The times come from their own options, and no other setting changes |
| MachineOption.ApplyCachesAndOsemu | src/cli/main.cpp:185-196 | The diagnostic is the data cache's, or failing that the instruction cache's. On success both caches are decoded from d-cache and i-cache, OS emulation follows its switch, and the known-syscall stop is cleared. The fs root is set to the last os-fs-root value exactly when that value is non-empty |
| MachineOption.ApplyCore | src/cli/main.cpp:168-179 | the ELF name, delay slot and pipelining follow the command line; the hazard unit follows its last value, or the value is reported as unknown |
| MachineOption.ApplyMachineOptions | src/cli/main.cpp:162-197 | Anything but one positional argument is an error and changes nothing. It succeeds exactly when the hazard unit is known, all three timings parse and both cache specifications are accepted. The first failing step gives the diagnostic: an unknown hazard unit, then the first of read, write and burst time that does not parse, then the data cache's and the instruction cache's. Without `--hazard-unit` the hazard unit is unchanged. On success every field is as its option says: ELF, switches, hazard unit, timings, caches, OS emulation, and the fs root (set exactly when the last value is non-empty) |
| MachineOption.MachineConfig.constructor | src/cli/main.cpp:162 | a machine configuration holds the given settings, with two distinct cache configurations |
| MachineOption.MachineConfig.SetCore | src/cli/main.cpp:168-179 | sets the ELF name, the switches and the hazard unit in place, as ApplyCore says |
| MachineOption.MachineConfig.SetTiming | src/cli/main.cpp:181-183 | one parse_u32_option call updates its timing in place |
| MachineOption.MachineConfig.SetTimings | src/cli/main.cpp:181-183 | the three timing calls in order |
| MachineOption.MachineConfig.ConfigureCachesAndOsemu | src/cli/main.cpp:185-196 | configures both caches in place, then the OS-emulation settings |
| MachineOption.MachineConfig.Configure | src/cli/main.cpp:162-197 | configure_machine updates the configuration to the decoded settings and reports the first diagnostic |
| TracerOption.SizeT | src/cli/main.cpp:217 | converting an int to size_t keeps its value modulo 2^64 |
| TracerOption.RegisterIndexAsWritten | src/cli/main.cpp:216-219 | a trace-gp value passes the bound as written exactly when it is an int from 0 to REGISTER_COUNT inclusive, and the index is the int itself |
| TracerOption.RegisterIndexAsWrittenOverruns | src/cli/main.cpp:218-219 | the value 32 passes the bound as written, yet it indexes past the 32-entry mask, and the corrected bound rejects it |
| TracerOption.RegisterIndex | src/cli/main.cpp:216-219 | a trace-gp value selects a register exactly when it is an int from 0 to REGISTER_COUNT - 1, and that register is the int itself |
| TracerOption.MarkRegisters | src/cli/main.cpp:211-226 | the register mask stays 32 entries long |
| TracerOption.MarkRegistersAccepts | src/cli/main.cpp:211-226 | the values are accepted exactly when each is `*` or a register number; otherwise the diagnostic names the first value that is neither |
| TracerOption.MarkRegistersSelects | src/cli/main.cpp:211-226 | after acceptance, a register is traced exactly when it was traced before, or some value is `*` or its number |
| TracerOption.SetTraceFlags | src/cli/main.cpp:199-209 | flags only turn on. Decode, memory and writeback need --pipelined. trace-execute turns on the fetch flag when pipelined. The pc and gp flags follow their options |
| TracerOption.Tracer.constructor | src/cli/main.cpp:199 | a fresh tracer traces nothing and has a 32-entry register mask |
| TracerOption.Tracer.SetFlags | src/cli/main.cpp:200-209 | the flag part of configure_tracer updates the tracer's flags in place |
| TracerOption.Tracer.MarkSelected | src/cli/main.cpp:211-226 | the trace-gp loop updates the mask array in place as MarkRegisters says |
| TracerOption.Tracer.Configure | src/cli/main.cpp:199-226 | configure_tracer: the flags, then the register mask |
| RangeArgument.ResolveField | src/cli/main.cpp:265-276 | a non-empty field that does not start with a digit is looked up in the symbol table when one exists; any other field is parsed as an unsigned long |
| RangeArgument.ParseDumpRange | src/cli/main.cpp:251-284 | a missing first comma is reported exactly when the argument has no comma; every failure is a range diagnostic |
| RangeArgument.DumpRangeOneComma | src/cli/main.cpp:258-262 | an argument with exactly one comma lacks its length |
| RangeArgument.DumpRangeFields | src/cli/main.cpp:251-284 | START,LENGTH,PATH decodes to the resolved start and length and the whole path, commas included, or to the specification error |
| RangeArgument.ParseLoadRange | src/cli/main.cpp:380-398 | a missing comma is reported exactly when the argument has none; every failure is a range diagnostic |
| RangeArgument.LoadRangeFields | src/cli/main.cpp:380-399 | START,PATH decodes to the resolved start and the whole path, or to the specification error |
| ReporterOption.FailReasonFromChar | src/cli/main.cpp:239-243 | only `i` or `I` is decoded, and it means an unsupported instruction |
| ReporterOption.ExpectFailMatch | src/cli/main.cpp:236-248 | the fail-match loops only append to the expected traps, and everything they append is an unsupported-instruction trap |
| ReporterOption.FailMatchDecodes | src/cli/main.cpp:236-248 | the fail-match values are accepted exactly when every letter is `i` or `I`. Each letter then adds one unsupported-instruction expectation, after those already there. A rejection names a letter that is not `i` |
| ReporterOption.FailMatchRejects | src/cli/main.cpp:237-245 | a rejected fail-match names a letter that occurs in the values, is not `i` or `I`, and is the first such letter in the loops' order |
| ReporterOption.DumpRangesAdded | src/cli/main.cpp:251-284 | the dump ranges are accepted exactly when every argument parses; they are then added in order after the existing ones |
| ReporterOption.AddDumpRanges | src/cli/main.cpp:251-284 | the dump-range loop only appends, at most one range per argument, and its diagnostics are range diagnostics. Each appended range is the parse of its argument, in order, and a diagnostic is the parse error of the first argument that does not parse |
| ReporterOption.ApplyExpectations | src/cli/main.cpp:232-249 | each reporting switch turns its report on. Expect-fail without fail-match adds FailAny. With neither, the expectations are unchanged. The diagnostic is the fail-match one |
| ReporterOption.ApplyReporterOptions | src/cli/main.cpp:232-285 | The switches and expected traps are those of the expectation step. A fail-match diagnostic stops decoding before any dump range is added. Otherwise the dump ranges and the diagnostic are those of the dump-range loop |
| ReporterOption.ReporterOptionsAccepted | src/cli/main.cpp:232-285 | configure_reporter reports nothing exactly when every fail-match letter is `i` or `I` and every dump-range argument parses. The reporter then expects one unsupported instruction per letter, followed by FailAny for expect-fail without fail-match. Its dump ranges are the parsed arguments in order |
| ReporterOption.Reporter.constructor | src/cli/main.cpp:232 | a fresh reporter reports nothing, expects nothing and dumps nothing |
| ReporterOption.Reporter.ExpectFailures | src/cli/main.cpp:236-248 | the nested fail-match loops append to the expectations as ExpectFailMatch says, and nothing else changes |
| ReporterOption.Reporter.AddRanges | src/cli/main.cpp:251-284 | the dump-range loop appends ranges as AddDumpRanges says, and nothing else changes |
| ReporterOption.Reporter.SetExpectations | src/cli/main.cpp:232-249 | the switches, fail-match and expect-fail part of configure_reporter |
| ReporterOption.Reporter.Configure | src/cli/main.cpp:232-285 | configure_reporter updates the reporter to the decoded settings and reports the first diagnostic |
| LoadRange.NextAddress | src/cli/main.cpp:418 | `addr += 4` wraps at 2^64 |
| LoadRange.WordOf | src/cli/main.cpp:412 | the stored word is the parsed unsigned long modulo 2^32 |
| LoadRange.LineWord | src/cli/main.cpp:400-418 | a line is skipped exactly when it is blank. Otherwise its trimmed text gives a word exactly when std::stoul reads it to its end. A failure is the throw diagnostic exactly when std::stoul reads no number, and the unparsable-data one when it stops before the end |
| LoadRange.LoadLines | src/cli/main.cpp:400-419 | a diagnostic from the line loop is one of the two load-data errors |
| LoadRange.LoadLinesRejects | src/cli/main.cpp:400-419 | a diagnostic from the line loop is the LineWord diagnostic of the first line that is neither blank nor a number read to its end |
| LoadRange.LoadLinesAccepts | src/cli/main.cpp:400-419 | a file loads without a diagnostic exactly when every non-blank line is a number std::stoul reads to its end |
| LoadRange.LoadLinesWrites | src/cli/main.cpp:400-419 | after such a load, memory is the old memory with the file's words written at consecutive addresses from the start |
| LoadRange.WriteWordsAt | src/cli/main.cpp:417-418 | without wrap-around, word k lands at start + 4k, the written addresses are added to memory, and every other address keeps its word |
| LoadRange.LoadOne | src/cli/main.cpp:377-421 | an argument without a comma is the range-start diagnostic, and a bad start changes no memory; a parsed START,FNAME runs the line loop over that file's lines from the resolved start |
| LoadRange.LoadOneWrites | src/cli/main.cpp:377-421 | a START,FNAME argument loads without a diagnostic exactly when its start resolves and every non-blank line of the file parses; the file's words are then written in order from the resolved start |
| LoadRange.LoadAll | src/cli/main.cpp:376-422 | after a load without diagnostic every argument had a resolvable start; every diagnostic is a range or load-data error; LoadAllWrites and LoadAllRejects give its full meaning |
| LoadRange.LoadAllWrites | src/cli/main.cpp:376-422 | load_ranges reports nothing exactly when every argument has a resolvable start and every non-blank line of every file is a number read to its end; memory is then each file's words written from its start, argument by argument in order |
| LoadRange.LoadAllRejects | src/cli/main.cpp:376-422 | when load_ranges reports a diagnostic, every argument before some k loads cleanly and the outcome is the k-th argument's own load, from the memory the earlier arguments left |
| LoadRange.LoadAllAppend | src/cli/main.cpp:376-422 | loading two argument lists one after the other is loading their concatenation, so later ranges overwrite earlier ones |
| LoadRange.MemoryBus.constructor | src/cli/main.cpp:417 | a bus starts with the given memory |
| LoadRange.MemoryBus.WriteU32 | src/cli/main.cpp:417 | write_u32 changes exactly one address |
| LoadRange.LoadFile | src/cli/main.cpp:400-419 | the line loop updates the bus in place as LoadLines says |
| LoadRange.LoadRanges | src/cli/main.cpp:376-422 | load_ranges updates the bus in place as LoadAll says and reports the first diagnostic |

## Left out

- create_parser, the option declarations and Qt's own option parsing are not part of this model. The command line arrives already parsed, with aliases resolved.
- configure_serial_port, configure_osemu, assemble and main are not part of this model. Neither are the Machine, Core, Cache and Reporter internals, or the simulation itself.
- The number syntaxes are abstract. These are parameters, not modelled digit by digit: QString::toLong, toUInt, toInt and toULong(&ok, 0), and std::stoul with its consumed length.
- Cli.CliError: after a diagnostic the source keeps decoding, because `QCoreApplication::exit` has no effect before the event loop. The model stops at the first diagnostic.
- The "single ELF file" case: the source shows the help text, which exits the process. The model reports SingleElfRequired and changes nothing.
- LoadRange.LoadLines: an exception from std::stoul is not caught in the source, so the process terminates. The model reports it as the LoadDataThrows diagnostic.
- Reading files is the `readLines` parameter, and a file that cannot be opened reads as no lines. Writing dump files, printing diagnostics and showing help are I/O and left out.
- Text.IsDigit and Text.Lower: QChar::isDigit, QString::toLower and tolower are modelled for ASCII only. Other Unicode digits and letters are not.
- The symbol table is an abstract partial map from names to 64-bit values (SymbolTable::name_to_value). Assembling it from the ELF file is not modelled.
- MachineOption.HazardUnitFromName: the hazard-unit names are the ones listed in the option's help text (src/cli/main.cpp:36). MachineConfig::set_hazard_unit is not part of this model.
- CacheOption.ApplyGeometry: the cache setters are taken to store unsigned 32-bit values, so a long is truncated modulo 2^32 before the zero check.
- LoadRange.MemoryBus: memory is a map from the byte address that write_u32 receives (`start + 4k`, at any alignment) to the 32-bit word written there. The bytes, their endianness and the access-effect argument of write_u32 are not modelled, so two words written from unaligned starts that overlap in bytes are kept as two separate entries.
- TracerOption.MarkRegisters: the source checks `num <= machine::REGISTER_COUNT` (src/cli/main.cpp:218). For `--trace-gp 32` it then calls `regs_to_trace.at(32)`, which throws std::out_of_range; nothing catches it, so the process terminates. MarkRegisters, MarkRegistersAccepts and Tracer.MarkSelected use the corrected bound instead and report UnknownRegister("32"). RegisterIndexAsWritten keeps the bound as written (see Findings).
- ReporterOption.FailReason: the Reporter's other trap kinds (ALU operation, overflow, unaligned jump) are never produced by the decoder, because only `i` is decoded. So they are not modelled.
- ReporterOption.ExpectFailMatch: the source reads the rejected letter as `fail[i].toStdString()[y]` (src/cli/main.cpp:238-243), a byte of the UTF-8 text at a UTF-16 position. For a non-ASCII value the diagnostic prints that byte, where the model names the character at that position. Which values are accepted is the same.
- LoadRange.WriteWordsAt: this lemma needs the words to fit below 2^64. Wrap-around at the top of the address space, where later words can overwrite earlier ones, is not covered by it.

## Findings

| source | as written | input that shows it | evidently intended | confidence | as-written member | corrected member |
|---|---|---|---|---|---|---|
| src/cli/main.cpp:218 | the trace-gp bound is `num <= machine::REGISTER_COUNT`, which admits 32 | `--trace-gp 32`: the check passes, and `regs_to_trace.at(32)` throws std::out_of_range on the 32-entry mask | `num < machine::REGISTER_COUNT`: 32 is reported as an unknown register number | high (not executed) | TracerOption.RegisterIndexAsWrittenOverruns | TracerOption.RegisterIndex |
