/** The `START,LENGTH,FNAME` and `START,FNAME` arguments of `--dump-range`
 *  and `--load-range`: splitting at the first commas and resolving the
 *  start and length, as a symbol or as a number (configure_reporter and
 *  load_ranges in src/cli/main.cpp). */
module RangeArgument {
  import opened Cli
  import opened Text

  /** A field that is looked up in the symbol table, if there is one: it
   *  is not empty and does not start with a digit. */
  predicate IsSymbolName(field: string) {
    |field| >= 1 && !IsDigit(field[0])
  }

  /** The value of a start or length field: SymbolTable::name_to_value for
   *  a symbol name when a symbol table exists, QString::toULong(&ok, 0)
   *  otherwise; None when either fails. */
  function ResolveField(field: string, symtab: Option<SymbolTable>, num: NumberSyntax): (r: Option<u64>)
    ensures symtab.Some? && IsSymbolName(field) ==>
              (r.Some? <==> field in symtab.value) && (r.Some? ==> r.value == symtab.value[field])
    ensures symtab.None? || !IsSymbolName(field) ==> r == num.toULong(field)
  {
    if IsSymbolName(field) && symtab.Some? then
      if field in symtab.value then Some(symtab.value[field]) else None
    else num.toULong(field)
  }

  datatype DumpRange = DumpRange(start: u64, length: u64, path: string)

  /** One `--dump-range` argument: split at its first and second commas. */
  function ParseDumpRange(arg: string, symtab: Option<SymbolTable>, num: NumberSyntax): (r: Result<DumpRange>)
    ensures r == Failure(RangeStartMissing) <==> ',' !in arg
    ensures r.Failure? ==> r.error in {RangeStartMissing, RangeLengthMissing, RangeSpecification}
  {
    match IndexOf(arg, ',', 0)
    case None => Failure(RangeStartMissing)
    case Some(comma1) =>
      match IndexOf(arg, ',', comma1 + 1)
      case None => Failure(RangeLengthMissing)
      case Some(comma2) =>
        var start := ResolveField(arg[..comma1], symtab, num);
        var length := ResolveField(arg[comma1 + 1..comma2], symtab, num);
        if start.None? || length.None? then Failure(RangeSpecification)
        else Success(DumpRange(start.value, length.value, arg[comma2 + 1..]))
  }

  /** An argument with exactly one comma lacks its length or its name. */
  lemma DumpRangeOneComma(start: string, rest: string, symtab: Option<SymbolTable>, num: NumberSyntax)
    requires ',' !in start && ',' !in rest
    ensures ParseDumpRange(start + "," + rest, symtab, num) == Failure(RangeLengthMissing)
  {
    var arg := start + "," + rest;
    assert arg[|start|] == ',';
    assert forall j :: 0 <= j < |start| ==> arg[j] == start[j];
    assert forall j :: |start| < j < |arg| ==> arg[j] == rest[j - |start| - 1];
  }

  /** The start and length are the texts before the first and second
   *  commas; the file name is everything after the second comma, further
   *  commas included. */
  lemma DumpRangeFields(start: string, length: string, path: string, symtab: Option<SymbolTable>, num: NumberSyntax)
    requires ',' !in start && ',' !in length
    ensures ParseDumpRange(start + "," + length + "," + path, symtab, num)
         == if ResolveField(start, symtab, num).None? || ResolveField(length, symtab, num).None?
            then Failure(RangeSpecification)
            else Success(DumpRange(ResolveField(start, symtab, num).value,
                                   ResolveField(length, symtab, num).value, path))
  {
    var arg := start + "," + length + "," + path;
    var comma1 := |start|;
    var comma2 := |start| + 1 + |length|;
    assert arg[comma1] == ',' && arg[comma2] == ',';
    assert forall j :: 0 <= j < comma1 ==> arg[j] == start[j];
    assert forall j :: comma1 < j < comma2 ==> arg[j] == length[j - comma1 - 1];
    assert IndexOf(arg, ',', 0) == Some(comma1);
    assert IndexOf(arg, ',', comma1 + 1) == Some(comma2);
    assert arg[..comma1] == start;
    assert arg[comma1 + 1..comma2] == length;
    assert arg[comma2 + 1..] == path;
  }

  datatype LoadRangeArg = LoadRangeArg(start: u64, path: string)

  /** One `--load-range` argument: split at its first comma. */
  function ParseLoadRange(arg: string, symtab: Option<SymbolTable>, num: NumberSyntax): (r: Result<LoadRangeArg>)
    ensures r == Failure(RangeStartMissing) <==> ',' !in arg
    ensures r.Failure? ==> r.error in {RangeStartMissing, RangeSpecification}
  {
    match IndexOf(arg, ',', 0)
    case None => Failure(RangeStartMissing)
    case Some(comma1) =>
      match ResolveField(arg[..comma1], symtab, num)
      case None => Failure(RangeSpecification)
      case Some(start) => Success(LoadRangeArg(start, arg[comma1 + 1..]))
  }

  /** The start is the text before the first comma; the file name is
   *  everything after it, further commas included. */
  lemma LoadRangeFields(start: string, path: string, symtab: Option<SymbolTable>, num: NumberSyntax)
    requires ',' !in start
    ensures ParseLoadRange(start + "," + path, symtab, num)
         == match ResolveField(start, symtab, num)
            case None => Failure(RangeSpecification)
            case Some(a) => Success(LoadRangeArg(a, path))
  {
    var arg := start + "," + path;
    assert arg[|start|] == ',';
    assert forall j :: 0 <= j < |start| ==> arg[j] == start[j];
    assert IndexOf(arg, ',', 0) == Some(|start|);
    assert arg[..|start|] == start;
    assert arg[|start| + 1..] == path;
  }
}
