/** The string operations of QString and std::string that the decoder
 *  uses: digit and case tests, splitting at a separator, searching for a
 *  character, and trimming blanks. */
module Text {
  import opened Cli

  /** QChar::isDigit, restricted to the ASCII digits. */
  predicate IsDigit(c: char) {
    '0' <= c <= '9'
  }

  /** QString::toLower and C tolower, restricted to the ASCII letters. */
  function Lower(c: char): char {
    if 'A' <= c <= 'Z' then (c as int + 32) as char else c
  }

  function LowerString(s: string): string {
    seq(|s|, i requires 0 <= i < |s| => Lower(s[i]))
  }

  /** QString::split(sep) keeping empty parts: the texts between the
   *  separators, in order. There is always at least one piece. */
  function Split(s: string, sep: char): (pieces: seq<string>)
    ensures |pieces| >= 1
    ensures forall i :: 0 <= i < |pieces| ==> sep !in pieces[i]
    decreases |s|
  {
    if s == [] then [""]
    else
      var rest := Split(s[1..], sep);
      if s[0] == sep then [""] + rest
      else [[s[0]] + rest[0]] + rest[1..]
  }

  /** The inverse of Split: the pieces with the separator between them. */
  function Join(pieces: seq<string>, sep: char): string
  {
    if pieces == [] then ""
    else if |pieces| == 1 then pieces[0]
    else pieces[0] + [sep] + Join(pieces[1..], sep)
  }

  /** Joining the pieces of a split gives the original text back. */
  lemma {:induction false} JoinSplit(s: string, sep: char)
    ensures Join(Split(s, sep), sep) == s
  {
    if s != [] {
      JoinSplit(s[1..], sep);
      var rest := Split(s[1..], sep);
      if s[0] == sep {
        assert ([""] + rest)[1..] == rest;
        assert s == [sep] + s[1..];
      } else {
        var pieces := [[s[0]] + rest[0]] + rest[1..];
        if |rest| > 1 {
          assert pieces[1..] == rest[1..];
        }
        assert s == [s[0]] + s[1..];
      }
    }
  }

  /** Splitting a text that starts with a separator-free prefix. */
  lemma {:induction false} SplitPrefix(p: string, t: string, sep: char)
    requires sep !in p
    ensures Split(p + t, sep) == [p + Split(t, sep)[0]] + Split(t, sep)[1..]
  {
    if p != [] {
      SplitPrefix(p[1..], t, sep);
      assert (p + t)[1..] == p[1..] + t;
      assert [p[0]] + (p[1..] + Split(t, sep)[0]) == p + Split(t, sep)[0];
    } else {
      var pieces := Split(t, sep);
      assert p + t == t && p + pieces[0] == pieces[0];
      assert pieces == [pieces[0]] + pieces[1..];
    }
  }

  /** Splitting joined separator-free pieces gives the pieces back. */
  lemma {:induction false} SplitJoin(pieces: seq<string>, sep: char)
    requires |pieces| >= 1
    requires forall i :: 0 <= i < |pieces| ==> sep !in pieces[i]
    ensures Split(Join(pieces, sep), sep) == pieces
  {
    if |pieces| == 1 {
      SplitPrefix(pieces[0], [], sep);
      assert pieces[0] + [] == pieces[0];
    } else {
      var t := Join(pieces[1..], sep);
      assert Join(pieces, sep) == pieces[0] + [sep] + t;
      SplitJoin(pieces[1..], sep);
      SplitPrefix(pieces[0], [sep] + t, sep);
      assert ([sep] + t)[1..] == t;
      assert Split([sep] + t, sep) == [""] + pieces[1..];
      assert pieces[0] + [sep] + t == pieces[0] + ([sep] + t);
      assert pieces[0] + "" == pieces[0];
      assert pieces == [pieces[0]] + pieces[1..];
    }
  }

  /** QString::indexOf(c, from): the first position at or after `from`
   *  holding `c`, None for -1. */
  function IndexOf(s: string, c: char, from: nat): (r: Option<nat>)
    ensures r.Some? ==> from <= r.value < |s| && s[r.value] == c
    ensures r.Some? ==> forall j :: from <= j < r.value ==> s[j] != c
    ensures r.None? ==> forall j :: from <= j < |s| ==> s[j] != c
    decreases |s| - from
  {
    if from >= |s| then None
    else if s[from] == c then Some(from)
    else IndexOf(s, c, from + 1)
  }

  /** The characters std::string::find_*_not_of(" \t\n") skips. */
  predicate IsBlankChar(c: char) {
    c == ' ' || c == '\t' || c == '\n'
  }

  predicate IsBlank(line: string) {
    forall i :: 0 <= i < |line| ==> IsBlankChar(line[i])
  }

  /** find_last_not_of(" \t\n"): None for npos. */
  function LastNonBlank(line: string): (r: Option<nat>)
    ensures r.None? <==> IsBlank(line)
    ensures r.Some? ==> r.value < |line| && !IsBlankChar(line[r.value])
    ensures r.Some? ==> forall j :: r.value < j < |line| ==> IsBlankChar(line[j])
  {
    if line == [] then None
    else if !IsBlankChar(line[|line| - 1]) then Some(|line| - 1)
    else
      var r := LastNonBlank(line[..|line| - 1]);
      assert forall j :: 0 <= j < |line| - 1 ==> line[..|line| - 1][j] == line[j];
      r
  }

  /** find_first_not_of(" \t\n"): None for npos. */
  function FirstNonBlank(line: string): (r: Option<nat>)
    ensures r.None? <==> IsBlank(line)
    ensures r.Some? ==> r.value < |line| && !IsBlankChar(line[r.value])
    ensures r.Some? ==> forall j :: 0 <= j < r.value ==> IsBlankChar(line[j])
  {
    if line == [] then None
    else if !IsBlankChar(line[0]) then Some(0)
    else
      var r := FirstNonBlank(line[1..]);
      if r.None? then None else Some(r.value + 1)
  }

  /** A non-blank line without its leading and trailing blanks:
   *  line.substr(0, end + 1).substr(start). */
  function Trim(line: string): (token: string)
    requires !IsBlank(line)
    ensures |token| > 0 && !IsBlankChar(token[0]) && !IsBlankChar(token[|token| - 1])
    ensures exists i :: 0 <= i <= |line| - |token| && token == line[i..i + |token|]
              && IsBlank(line[..i]) && IsBlank(line[i + |token|..])
  {
    var first := FirstNonBlank(line).value;
    var last := LastNonBlank(line).value;
    var token := line[first..last + 1];
    assert IsBlank(line[..first]) && IsBlank(line[last + 1..]);
    token
  }

  /** A one-digit number as its character. */
  function DigitChar(d: nat): (c: char)
    requires d < 10
    ensures IsDigit(c)
  {
    ('0' as int + d) as char
  }

  /** The decimal numeral of a natural number. */
  function Decimal(n: nat): (r: string)
    ensures |r| > 0
    ensures forall i :: 0 <= i < |r| ==> IsDigit(r[i])
  {
    if n < 10 then [DigitChar(n)] else Decimal(n / 10) + [DigitChar(n % 10)]
  }
}
