/** Loading `--load-range START,FNAME` files into memory: every non-blank
 *  line of the file is one number, written as a 32-bit word at START,
 *  START + 4, ... (load_ranges in src/cli/main.cpp). */
module LoadRange {
  import opened Cli
  import opened Text
  import opened RangeArgument

  /** The data memory, seen as the 32-bit words written to it. */
  type Memory = map<u64, u32>

  /** `addr += 4` on a 64-bit address. */
  function NextAddress(addr: u64): (r: u64)
    ensures (addr + 4 - r) % TWO_64 == 0
    ensures addr + 4 < TWO_64 ==> r == addr + 4
  {
    (addr + 4) % TWO_64
  }

  /** A token that std::stoul reads to its end. */
  predicate Parses(token: string, num: NumberSyntax) {
    num.stoul(token).Some? && num.stoul(token).value.used == |token|
  }

  /** The word a token stores: the unsigned long truncated to uint32_t
   *  (0 for a token that does not parse, which is never stored). */
  function WordOf(token: string, num: NumberSyntax): (w: u32)
    ensures Parses(token, num) ==> (num.stoul(token).value.value - w) % TWO_32 == 0
  {
    if num.stoul(token).Some? then ToU32(num.stoul(token).value.value) else 0
  }

  /** One line of a load-range file: None for a blank line, which is
   *  skipped; otherwise the word of its trimmed text, or the diagnostic. */
  function LineWord(line: string, num: NumberSyntax): (r: Option<Result<u32>>)
    ensures r.None? <==> IsBlank(line)
    ensures r.Some? ==> (r.value.Success? <==> Parses(Trim(line), num))
    ensures r.Some? && r.value.Success? ==> r.value.value == WordOf(Trim(line), num)
    ensures r.Some? && r.value.Failure? ==>
              r.value.error in {LoadDataThrows, LoadDataUnparsable}
              && (r.value.error == LoadDataThrows <==> num.stoul(Trim(line)).None?)
  {
    if IsBlank(line) then None
    else
      var token := Trim(line);
      match num.stoul(token)
      case None => Some(Failure(LoadDataThrows))
      case Some(p) =>
        if p.used != |token| then Some(Failure(LoadDataUnparsable))
        else Some(Success(ToU32(p.value)))
  }

  /** The line loop of load_ranges: each word goes to the next address. */
  function LoadLines(mem: Memory, addr: u64, lines: seq<string>, num: NumberSyntax): (r: Outcome<Memory>)
    ensures r.failure.Some? ==> r.failure.value in {LoadDataThrows, LoadDataUnparsable}
    decreases |lines|
  {
    if lines == [] then Outcome(mem, None)
    else
      match LineWord(lines[0], num)
      case None => LoadLines(mem, addr, lines[1..], num)
      case Some(Failure(e)) => Outcome(mem, Some(e))
      case Some(Success(w)) => LoadLines(mem[addr := w], NextAddress(addr), lines[1..], num)
  }

  /** The trimmed texts of the non-blank lines, in order. */
  function Tokens(lines: seq<string>): seq<string>
    decreases |lines|
  {
    if lines == [] then []
    else if IsBlank(lines[0]) then Tokens(lines[1..])
    else [Trim(lines[0])] + Tokens(lines[1..])
  }

  function Words(tokens: seq<string>, num: NumberSyntax): (ws: seq<u32>)
    ensures |ws| == |tokens|
  {
    seq(|tokens|, i requires 0 <= i < |tokens| => WordOf(tokens[i], num))
  }

  /** The words written one after the other from `addr` on. */
  function WriteWords(mem: Memory, addr: u64, vals: seq<u32>): Memory
    decreases |vals|
  {
    if vals == [] then mem else WriteWords(mem[addr := vals[0]], NextAddress(addr), vals[1..])
  }

  /** Every token is a number std::stoul reads to its end. */
  predicate AllParse(tokens: seq<string>, num: NumberSyntax) {
    forall i :: 0 <= i < |tokens| ==> Parses(tokens[i], num)
  }

  /** A file loads without a diagnostic exactly when every non-blank line
   *  is a number std::stoul reads to its end. */
  lemma {:induction false} LoadLinesAccepts(mem: Memory, addr: u64, lines: seq<string>, num: NumberSyntax)
    ensures LoadLines(mem, addr, lines, num).failure.None? <==> AllParse(Tokens(lines), num)
    decreases |lines|
  {
    if lines != [] {
      var rest := lines[1..];
      if IsBlank(lines[0]) {
        assert LoadLines(mem, addr, lines, num) == LoadLines(mem, addr, rest, num);
        LoadLinesAccepts(mem, addr, rest, num);
      } else {
        var t := Trim(lines[0]);
        var toks, trest := Tokens(lines), Tokens(rest);
        assert toks == [t] + trest;
        assert AllParse(toks, num) <==> Parses(t, num) && AllParse(trest, num) by {
          assert forall i :: 0 <= i < |trest| ==> trest[i] == toks[i + 1];
        }
        if Parses(t, num) {
          var w := WordOf(t, num);
          assert LoadLines(mem, addr, lines, num) == LoadLines(mem[addr := w], NextAddress(addr), rest, num);
          LoadLinesAccepts(mem[addr := w], NextAddress(addr), rest, num);
        } else {
          assert LoadLines(mem, addr, lines, num).failure.Some?;
        }
      }
    }
  }

  /** A line load_ranges gets past: blank, or a number read to its end. */
  predicate LineLoads(line: string, num: NumberSyntax) {
    IsBlank(line) || Parses(Trim(line), num)
  }

  /** A file that loads with a diagnostic: it is the LineWord diagnostic
   *  of the first line that is neither blank nor a number. */
  lemma {:induction false} LoadLinesRejects(mem: Memory, addr: u64, lines: seq<string>, num: NumberSyntax)
    requires LoadLines(mem, addr, lines, num).failure.Some?
    ensures exists k :: 0 <= k < |lines|
              && LineWord(lines[k], num) == Some(Failure(LoadLines(mem, addr, lines, num).failure.value))
              && (forall j :: 0 <= j < k ==> LineLoads(lines[j], num))
    decreases |lines|
  {
    var r := LoadLines(mem, addr, lines, num);
    var rest := lines[1..];
    var lw := LineWord(lines[0], num);
    if lw.Some? && lw.value.Failure? {
      assert r.failure == Some(lw.value.error);
    } else {
      var mem', addr' := mem, addr;
      if lw.Some? {
        mem', addr' := mem[addr := lw.value.value], NextAddress(addr);
      }
      assert r == LoadLines(mem', addr', rest, num);
      assert LineLoads(lines[0], num);
      LoadLinesRejects(mem', addr', rest, num);
      var k :| 0 <= k < |rest| && LineWord(rest[k], num) == Some(Failure(r.failure.value))
                && (forall j :: 0 <= j < k ==> LineLoads(rest[j], num));
      assert lines[k + 1] == rest[k];
      forall j | 0 <= j < k + 1
        ensures LineLoads(lines[j], num)
      {
        if j > 0 { assert lines[j] == rest[j - 1]; }
      }
    }
  }

  /** After a load without diagnostic, the file's words are written in
   *  order from the start address. */
  lemma {:induction false} LoadLinesWrites(mem: Memory, addr: u64, lines: seq<string>, num: NumberSyntax)
    requires LoadLines(mem, addr, lines, num).failure.None?
    ensures LoadLines(mem, addr, lines, num).state == WriteWords(mem, addr, Words(Tokens(lines), num))
    decreases |lines|
  {
    if lines != [] {
      var rest := lines[1..];
      if IsBlank(lines[0]) {
        assert LoadLines(mem, addr, lines, num) == LoadLines(mem, addr, rest, num);
        LoadLinesWrites(mem, addr, rest, num);
      } else {
        var t := Trim(lines[0]);
        var w := WordOf(t, num);
        assert Tokens(lines) == [t] + Tokens(rest);
        assert LineWord(lines[0], num) == Some(Success(w));
        assert LoadLines(mem, addr, lines, num) == LoadLines(mem[addr := w], NextAddress(addr), rest, num);
        LoadLinesWrites(mem[addr := w], NextAddress(addr), rest, num);
        var ws := Words(Tokens(lines), num);
        assert ws == [w] + Words(Tokens(rest), num);
        assert ws[0] == w && ws[1..] == Words(Tokens(rest), num);
      }
    }
  }

  /** The addresses `addr`, `addr + 4`, ... of n words. */
  predicate Covers(addr: u64, n: nat, a: int) {
    addr <= a < addr + 4 * n && (a - addr) % 4 == 0
  }

  /** Without wrap-around, the words land at `addr + 4 * k`, and nothing
   *  else in memory changes. */
  lemma {:induction false} WriteWordsAt(mem: Memory, addr: u64, vals: seq<u32>)
    requires addr + 4 * |vals| <= TWO_64
    ensures forall a: u64 :: a in WriteWords(mem, addr, vals) <==> a in mem || Covers(addr, |vals|, a)
    ensures forall a: u64 :: a in mem && !Covers(addr, |vals|, a) ==> WriteWords(mem, addr, vals)[a] == mem[a]
    ensures forall k :: 0 <= k < |vals| ==>
              addr + 4 * k in WriteWords(mem, addr, vals) && WriteWords(mem, addr, vals)[addr + 4 * k] == vals[k]
    decreases |vals|
  {
    if vals != [] {
      var rest := vals[1..];
      var next := NextAddress(addr);
      var m1 := mem[addr := vals[0]];
      if rest == [] {
        assert next == addr + 4 || addr + 4 == TWO_64;
        assert forall a: u64 :: Covers(addr, 1, a) <==> a == addr;
      } else {
        assert next == addr + 4;
        WriteWordsAt(m1, next, rest);
        var r := WriteWords(mem, addr, vals);
        assert r == WriteWords(m1, next, rest);
        forall a: u64
          ensures Covers(addr, |vals|, a) <==> a == addr || Covers(next, |rest|, a)
        {
          if Covers(addr, |vals|, a) && a != addr {
            assert (a - next) % 4 == 0;
          }
        }
        forall k | 0 <= k < |vals|
          ensures r[addr + 4 * k] == vals[k]
        {
          if k > 0 {
            assert addr + 4 * k == next + 4 * (k - 1);
            assert rest[k - 1] == vals[k];
          } else {
            assert !Covers(next, |rest|, addr);
          }
        }
      }
    }
  }

  /** One `--load-range` argument: its start resolved and its file's lines
   *  loaded. `readLines` stands for reading the named file; a file that
   *  cannot be opened reads as no lines. */
  function LoadOne(mem: Memory, arg: string, symtab: Option<SymbolTable>,
                   readLines: string -> seq<string>, num: NumberSyntax): (r: Outcome<Memory>)
    ensures ',' !in arg ==> r == Outcome(mem, Some(RangeStartMissing))
    ensures ParseLoadRange(arg, symtab, num).Failure? ==> r.state == mem
    ensures var p := ParseLoadRange(arg, symtab, num);
            p.Success? ==> r == LoadLines(mem, p.value.start, readLines(p.value.path), num)
  {
    match ParseLoadRange(arg, symtab, num)
    case Failure(e) => Outcome(mem, Some(e))
    case Success(range) => LoadLines(mem, range.start, readLines(range.path), num)
  }

  /** One `START,FNAME` argument loads without a diagnostic exactly when
   *  its start resolves and every non-blank line of the file is a number;
   *  the file's words are then written in order from the resolved start. */
  lemma LoadOneWrites(mem: Memory, start: string, path: string, symtab: Option<SymbolTable>,
                      readLines: string -> seq<string>, num: NumberSyntax)
    requires ',' !in start
    ensures var r := LoadOne(mem, start + "," + path, symtab, readLines, num);
            var a := ResolveField(start, symtab, num);
            (r.failure.None? <==> a.Some? && AllParse(Tokens(readLines(path)), num))
            && (r.failure.None? ==> r.state == WriteWords(mem, a.value, Words(Tokens(readLines(path)), num)))
  {
    LoadRangeFields(start, path, symtab, num);
    var a := ResolveField(start, symtab, num);
    if a.Some? {
      LoadLinesAccepts(mem, a.value, readLines(path), num);
      if LoadLines(mem, a.value, readLines(path), num).failure.None? {
        LoadLinesWrites(mem, a.value, readLines(path), num);
      }
    }
  }

  /** load_ranges: the arguments in order; stops at the first diagnostic. */
  function LoadAll(mem: Memory, args: seq<string>, symtab: Option<SymbolTable>,
                   readLines: string -> seq<string>, num: NumberSyntax): (r: Outcome<Memory>)
    ensures r.failure.None? ==> forall i :: 0 <= i < |args| ==> ParseLoadRange(args[i], symtab, num).Success?
    ensures r.failure.Some? ==>
              r.failure.value in {RangeStartMissing, RangeSpecification, LoadDataThrows, LoadDataUnparsable}
    decreases |args|
  {
    if args == [] then Outcome(mem, None)
    else
      var one := LoadOne(mem, args[0], symtab, readLines, num);
      if one.failure.Some? then one
      else LoadAll(one.state, args[1..], symtab, readLines, num)
  }

  /** Every argument is `START,FNAME` with a resolvable start, and every
   *  non-blank line of its file is a number std::stoul reads to its end. */
  predicate AllLoad(args: seq<string>, symtab: Option<SymbolTable>,
                    readLines: string -> seq<string>, num: NumberSyntax) {
    forall i :: 0 <= i < |args| ==>
      ParseLoadRange(args[i], symtab, num).Success?
      && AllParse(Tokens(readLines(ParseLoadRange(args[i], symtab, num).value.path)), num)
  }

  /** The memory the arguments describe: each file's words written from its
   *  start, the arguments taken in order (an argument that does not parse
   *  writes nothing). */
  function WriteFiles(mem: Memory, args: seq<string>, symtab: Option<SymbolTable>,
                      readLines: string -> seq<string>, num: NumberSyntax): Memory
    decreases |args|
  {
    if args == [] then mem
    else
      match ParseLoadRange(args[0], symtab, num)
      case Failure(_) => WriteFiles(mem, args[1..], symtab, readLines, num)
      case Success(range) =>
        WriteFiles(WriteWords(mem, range.start, Words(Tokens(readLines(range.path)), num)),
                   args[1..], symtab, readLines, num)
  }

  /** load_ranges reports nothing exactly when every argument and every
   *  file is well formed, and then memory holds each file's words from its
   *  start, later arguments overwriting earlier ones. */
  lemma {:induction false} LoadAllWrites(mem: Memory, args: seq<string>, symtab: Option<SymbolTable>,
                                         readLines: string -> seq<string>, num: NumberSyntax)
    ensures LoadAll(mem, args, symtab, readLines, num).failure.None? <==> AllLoad(args, symtab, readLines, num)
    ensures LoadAll(mem, args, symtab, readLines, num).failure.None? ==>
              LoadAll(mem, args, symtab, readLines, num).state == WriteFiles(mem, args, symtab, readLines, num)
    decreases |args|
  {
    if args != [] {
      var rest := args[1..];
      assert AllLoad(args, symtab, readLines, num) <==>
             (ParseLoadRange(args[0], symtab, num).Success?
              && AllParse(Tokens(readLines(ParseLoadRange(args[0], symtab, num).value.path)), num)
              && AllLoad(rest, symtab, readLines, num)) by {
        assert forall i :: 0 <= i < |rest| ==> rest[i] == args[i + 1];
      }
      match ParseLoadRange(args[0], symtab, num)
      case Failure(_) =>
      case Success(range) =>
        var lines := readLines(range.path);
        var one := LoadOne(mem, args[0], symtab, readLines, num);
        assert one == LoadLines(mem, range.start, lines, num);
        LoadLinesAccepts(mem, range.start, lines, num);
        if one.failure.None? {
          LoadLinesWrites(mem, range.start, lines, num);
          LoadAllWrites(one.state, rest, symtab, readLines, num);
        }
    }
  }

  /** One argument that loads without diagnostic parses, its file is all
   *  numbers, and its words are written from its start. */
  lemma LoadOneClean(mem: Memory, arg: string, symtab: Option<SymbolTable>,
                     readLines: string -> seq<string>, num: NumberSyntax)
    requires LoadOne(mem, arg, symtab, readLines, num).failure.None?
    ensures ParseLoadRange(arg, symtab, num).Success?
    ensures var range := ParseLoadRange(arg, symtab, num).value;
            AllParse(Tokens(readLines(range.path)), num)
            && LoadOne(mem, arg, symtab, readLines, num).state
               == WriteWords(mem, range.start, Words(Tokens(readLines(range.path)), num))
  {
    var range := ParseLoadRange(arg, symtab, num).value;
    LoadLinesAccepts(mem, range.start, readLines(range.path), num);
    LoadLinesWrites(mem, range.start, readLines(range.path), num);
  }

  /** AllLoad of a list with a first argument. */
  lemma AllLoadCons(args: seq<string>, symtab: Option<SymbolTable>,
                    readLines: string -> seq<string>, num: NumberSyntax)
    requires args != []
    ensures AllLoad(args, symtab, readLines, num) <==>
              ParseLoadRange(args[0], symtab, num).Success?
              && AllParse(Tokens(readLines(ParseLoadRange(args[0], symtab, num).value.path)), num)
              && AllLoad(args[1..], symtab, readLines, num)
  {
    assert forall i :: 0 <= i < |args[1..]| ==> args[1..][i] == args[i + 1];
  }

  /** load_ranges with a diagnostic: every argument before the k-th loads,
   *  and the outcome is the k-th argument's own, loaded into the memory the
   *  earlier ones left. */
  lemma {:induction false} LoadAllRejects(mem: Memory, args: seq<string>, symtab: Option<SymbolTable>,
                                          readLines: string -> seq<string>, num: NumberSyntax)
    requires LoadAll(mem, args, symtab, readLines, num).failure.Some?
    ensures exists k :: 0 <= k < |args| && AllLoad(args[..k], symtab, readLines, num)
              && LoadAll(mem, args, symtab, readLines, num)
                 == LoadOne(WriteFiles(mem, args[..k], symtab, readLines, num), args[k], symtab, readLines, num)
    decreases |args|
  {
    var one := LoadOne(mem, args[0], symtab, readLines, num);
    if one.failure.Some? {
      assert args[..0] == [];
      assert LoadAll(mem, args, symtab, readLines, num)
          == LoadOne(WriteFiles(mem, args[..0], symtab, readLines, num), args[0], symtab, readLines, num);
    } else {
      var rest := args[1..];
      LoadOneClean(mem, args[0], symtab, readLines, num);
      LoadAllRejects(one.state, rest, symtab, readLines, num);
      var k :| 0 <= k < |rest| && AllLoad(rest[..k], symtab, readLines, num)
                && LoadAll(one.state, rest, symtab, readLines, num)
                   == LoadOne(WriteFiles(one.state, rest[..k], symtab, readLines, num), rest[k], symtab, readLines, num);
      var pre := args[..k + 1];
      assert pre[0] == args[0] && pre[1..] == rest[..k];
      AllLoadCons(pre, symtab, readLines, num);
      assert WriteFiles(mem, pre, symtab, readLines, num) == WriteFiles(one.state, rest[..k], symtab, readLines, num);
      assert args[k + 1] == rest[k];
    }
  }

  /** Loading two lists of ranges one after the other is loading their
   *  concatenation: a later range overwrites what an earlier one wrote. */
  lemma {:induction false} LoadAllAppend(mem: Memory, first: seq<string>, second: seq<string>, symtab: Option<SymbolTable>,
                                         readLines: string -> seq<string>, num: NumberSyntax)
    ensures LoadAll(mem, first + second, symtab, readLines, num)
         == var r := LoadAll(mem, first, symtab, readLines, num);
            if r.failure.Some? then r else LoadAll(r.state, second, symtab, readLines, num)
    decreases |first|
  {
    if first == [] {
      assert first + second == second;
    } else {
      assert (first + second)[0] == first[0];
      assert (first + second)[1..] == first[1..] + second;
      var one := LoadOne(mem, first[0], symtab, readLines, num);
      if one.failure.None? {
        LoadAllAppend(one.state, first[1..], second, symtab, readLines, num);
      }
    }
  }

  /** The machine's data bus, as far as load_ranges uses it. */
  class MemoryBus {
    var words: Memory

    constructor (initial: Memory)
      ensures words == initial
    {
      words := initial;
    }

    /** write_u32: one word at one address. */
    method WriteU32(addr: u64, value: u32)
      modifies this
      ensures words == old(words)[addr := value]
    {
      words := words[addr := value];
    }
  }

  /** The line loop of load_ranges over one file. */
  method LoadFile(bus: MemoryBus, start: u64, lines: seq<string>, num: NumberSyntax) returns (failure: Option<CliError>)
    modifies bus
    ensures Outcome(bus.words, failure) == LoadLines(old(bus.words), start, lines, num)
  {
    var addr := start;
    var j := 0;
    while j < |lines|
      invariant 0 <= j <= |lines|
      invariant LoadLines(bus.words, addr, lines[j..], num) == LoadLines(old(bus.words), start, lines, num)
    {
      var line := lines[j];
      assert lines[j..][1..] == lines[j + 1..];
      var last := LastNonBlank(line);
      if last.None? {
        j := j + 1;
        continue;
      }
      var first := FirstNonBlank(line).value;
      var token := line[..last.value + 1][first..];
      assert token == Trim(line);
      var parsed := num.stoul(token);
      if parsed.None? {
        return Some(LoadDataThrows);
      }
      if parsed.value.used != |token| {
        return Some(LoadDataUnparsable);
      }
      bus.WriteU32(addr, ToU32(parsed.value.value));
      addr := NextAddress(addr);
      j := j + 1;
    }
    return None;
  }

  /** load_ranges: each argument's start, then its file. */
  method LoadRanges(bus: MemoryBus, args: seq<string>, symtab: Option<SymbolTable>,
                    readLines: string -> seq<string>, num: NumberSyntax) returns (failure: Option<CliError>)
    modifies bus
    ensures Outcome(bus.words, failure) == LoadAll(old(bus.words), args, symtab, readLines, num)
  {
    var i := 0;
    while i < |args|
      invariant 0 <= i <= |args|
      invariant LoadAll(bus.words, args[i..], symtab, readLines, num) == LoadAll(old(bus.words), args, symtab, readLines, num)
    {
      assert args[i..][1..] == args[i + 1..];
      var range := ParseLoadRange(args[i], symtab, num);
      if range.Failure? {
        return Some(range.error);
      }
      failure := LoadFile(bus, range.value.start, readLines(range.value.path), num);
      if failure.Some? {
        return;
      }
      i := i + 1;
    }
    return None;
  }
}
