/** The line-oriented assembly parser of lib/Target/EPU/Parser/EPUAsmParser.cpp.

    Each character loop of EPUAsmParser.cpp is a method here, proved equal to a
    function (the "spec") that other functions and lemmas use. Exceptions
    (`runtime_error`, `stoi` failures) and `exit(PARSE_ERROR)` become `Err`
    values. */
module AsmParser {
  import opened Wrappers
  import opened Isa

  datatype ParseError =
    | InvalidArgument(text: string)          // stoi found no digits
    | OutOfRange(text: string)               // stoi value outside a 32-bit int
    | InvalidDim(text: string)               // "Invalid dim: "
    | SliceNotEnclosed(text: string)         // "Slice must be enclosed in < > : "
    | SliceFieldCount(inside: string)        // "Slice requires 3 fields <base, dim1, dim0>: "
    | FieldCount(opcode: string, rest: string) // "<opcode> parse failed: "
    | MissingAccumulator                     // "matmul missing accumulator spec"
    | InvalidAccumulator(text: string)       // "Invalid accumulator: "
    | UnknownInstruction(line: string)       // exit(PARSE_ERROR) on an unrecognised prefix

  const IntMin: int := -0x8000_0000
  const IntMax: int := 0x7fff_ffff

  const GlobalToLocalPrefix: string := "cp_global_to_local"
  const LocalToGlobalPrefix: string := "cp_local_to_global"
  const MatmulPrefix: string := "matmul"
  const AccumulatorKey: string := "accumulator="

  // ---------------------------------------------------------------------
  // trim and starts_with
  // ---------------------------------------------------------------------

  /** The characters `trim` strips: " \t\r\n". */
  predicate IsTrimSpace(c: char) {
    c == ' ' || c == '\t' || c == '\r' || c == '\n'
  }

  predicate AllTrimSpace(s: string) {
    forall i :: 0 <= i < |s| ==> IsTrimSpace(s[i])
  }

  /** `find_first_not_of(" \t\r\n")` from index `i`: the first index at or
      after `i` whose character is not trim space, or |s|. */
  function FirstNotSpace(s: string, i: nat): (a: nat)
    requires i <= |s|
    ensures i <= a <= |s|
    ensures forall j :: i <= j < a ==> IsTrimSpace(s[j])
    ensures a < |s| ==> !IsTrimSpace(s[a])
    decreases |s| - i
  {
    if i < |s| && IsTrimSpace(s[i]) then FirstNotSpace(s, i + 1) else i
  }

  /** One past `find_last_not_of(" \t\r\n")` below index `j`, or 0. */
  function EndNotSpace(s: string, j: nat): (b: nat)
    requires j <= |s|
    ensures b <= j
    ensures forall k :: b <= k < j ==> IsTrimSpace(s[k])
    ensures b > 0 ==> !IsTrimSpace(s[b - 1])
  {
    if j > 0 && IsTrimSpace(s[j - 1]) then EndNotSpace(s, j - 1) else j
  }

  /** `trim`: the text between the first and the last character that is not
      one of " \t\r\n", or "" when there is none. */
  function Trim(s: string): string
  {
    var a := FirstNotSpace(s, 0);
    if a == |s| then ""
    else
      var b := EndNotSpace(s, |s|);
      assert a < b;
      s[a..b]
  }

  /** `trim` yields "" exactly for all-blank text; otherwise its result
      starts and ends with a non-blank, and what it removes on either side
      is white space only. */
  lemma TrimSpec(s: string)
    ensures var r := Trim(s);
      && (r == [] <==> AllTrimSpace(s))
      && (r != [] ==> !IsTrimSpace(r[0]) && !IsTrimSpace(r[|r| - 1]))
      && var a := FirstNotSpace(s, 0);
         && a + |r| <= |s| && r == s[a..a + |r|]
         && (forall k :: 0 <= k < a ==> IsTrimSpace(s[k]))
         && (forall k :: a + |r| <= k < |s| ==> IsTrimSpace(s[k]))
  {
    var a := FirstNotSpace(s, 0);
    if a < |s| {
      assert !IsTrimSpace(s[a]);
    }
  }

  /** `starts_with(s, pref)`, i.e. `s.rfind(pref, 0) == 0`. */
  predicate StartsWith(s: string, pref: string) {
    |pref| <= |s| && s[..|pref|] == pref
  }

  // ---------------------------------------------------------------------
  // parseInt = stoi(trim(s))
  // ---------------------------------------------------------------------

  /** The characters `strtol` skips before the number (C `isspace`). */
  predicate IsCSpace(c: char) {
    c == ' ' || c == '\t' || c == '\n' || c == '\U{000B}' || c == '\U{000C}' || c == '\r'
  }

  predicate IsDigit(c: char) {
    '0' <= c <= '9'
  }

  predicate AllDigits(s: string) {
    forall i :: 0 <= i < |s| ==> IsDigit(s[i])
  }

  function SkipCSpace(s: string): string
  {
    if s != [] && IsCSpace(s[0]) then SkipCSpace(s[1..]) else s
  }

  /** The longest prefix of `s` made of decimal digits. */
  function DigitPrefix(s: string): (r: string)
    ensures StartsWith(s, r) && AllDigits(r)
    ensures |r| < |s| ==> !IsDigit(s[|r|])
  {
    if s != [] && IsDigit(s[0]) then [s[0]] + DigitPrefix(s[1..]) else []
  }

  function DigitValue(c: char): int
    requires IsDigit(c)
  {
    c as int - '0' as int
  }

  /** The value of a decimal digit string, most significant digit first. */
  function DigitsValue(ds: string): nat
    requires AllDigits(ds)
  {
    if ds == [] then 0 else DigitsValue(ds[..|ds| - 1]) * 10 + DigitValue(ds[|ds| - 1])
  }

  /** `stoi`: skips white space, takes an optional sign and the longest run of
      digits after it (anything after the digits is ignored); no digit is an
      `invalid_argument`, a value outside `int` an `out_of_range`. */
  function Stoi(s: string): (r: Result<int, ParseError>)
    ensures r.Ok? ==> IntMin <= r.value <= IntMax
  {
    var t := SkipCSpace(s);
    var neg := t != [] && t[0] == '-';
    var body := if t != [] && (t[0] == '-' || t[0] == '+') then t[1..] else t;
    var ds := DigitPrefix(body);
    if ds == [] then Err(InvalidArgument(s))
    else
      var n: int := DigitsValue(ds);
      var v := if neg then -n else n;
      if v < IntMin || IntMax < v then Err(OutOfRange(s)) else Ok(v)
  }

  /** `parseInt`: any value it yields fits a 32-bit int. */
  function ParseInt(s: string): (r: Result<int, ParseError>)
    ensures r.Ok? ==> IntMin <= r.value <= IntMax
  {
    Stoi(Trim(s))
  }

  // ---------------------------------------------------------------------
  // Field splitting: each function is the state of one C++ character loop
  // (the unread text, the current field `cur`, the fields so far `parts`).
  // ---------------------------------------------------------------------

  /** The loop of `parseDim`: every ':' ends a part; the last part is always kept. */
  function ColonParts(t: string, cur: string, parts: seq<string>): (r: seq<string>)
    ensures |r| >= |parts| + 1
    decreases |t|
  {
    if t == [] then parts + [cur]
    else if t[0] == ':' then ColonParts(t[1..], [], parts + [cur])
    else ColonParts(t[1..], cur + [t[0]], parts)
  }

  /** The loop of `parseSlice`: its `depth` is never changed, so every ',' ends
      a field; fields are trimmed and the last one is kept only if non-empty. */
  function SliceFields(t: string, cur: string, parts: seq<string>): seq<string>
    decreases |t|
  {
    if t == [] then (if cur != [] then parts + [Trim(cur)] else parts)
    else if t[0] == ',' then SliceFields(t[1..], [], parts + [Trim(cur)])
    else SliceFields(t[1..], cur + [t[0]], parts)
  }

  /** The depth after reading one character at `depth`. */
  function NextDepth(c: char, depth: int): int
  {
    if c == '<' then depth + 1 else if c == '>' then depth - 1 else depth
  }

  /** The loop of the three op parsers: a ',' ends a field only at `<`/`>`
      depth 0; fields are not trimmed; a non-empty trailing field is kept. */
  function TopLevelFields(t: string, depth: int, cur: string, parts: seq<string>): seq<string>
    decreases |t|
  {
    if t == [] then (if cur != [] then parts + [cur] else parts)
    else
      var d := NextDepth(t[0], depth);
      if t[0] == ',' && d == 0 then TopLevelFields(t[1..], d, [], parts + [cur])
      else TopLevelFields(t[1..], d, cur + [t[0]], parts)
  }

  method SplitColons(t: string) returns (parts: seq<string>)
    ensures parts == ColonParts(t, [], [])
  {
    parts := [];
    var cur := "";
    var i := 0;
    while i < |t|
      invariant 0 <= i <= |t|
      invariant ColonParts(t[i..], cur, parts) == ColonParts(t, [], [])
    {
      assert t[i..][1..] == t[i + 1..];
      if t[i] == ':' {
        parts := parts + [cur];
        cur := "";
      } else {
        cur := cur + [t[i]];
      }
      i := i + 1;
    }
    parts := parts + [cur];
  }

  method SplitSliceFields(inside: string) returns (parts: seq<string>)
    ensures parts == SliceFields(inside, [], [])
  {
    parts := [];
    var cur := "";
    var depth := 0;
    var i := 0;
    while i < |inside|
      invariant 0 <= i <= |inside|
      invariant SliceFields(inside[i..], cur, parts) == SliceFields(inside, [], [])
    {
      assert inside[i..][1..] == inside[i + 1..];
      var c := inside[i];
      if c == ',' && depth == 0 {
        parts := parts + [Trim(cur)];
        cur := "";
      } else {
        cur := cur + [c];
      }
      i := i + 1;
    }
    if cur != [] {
      parts := parts + [Trim(cur)];
    }
  }

  method SplitTopLevel(rest: string) returns (parts: seq<string>)
    ensures parts == TopLevelFields(rest, 0, [], [])
  {
    parts := [];
    var cur := "";
    var depth := 0;
    var i := 0;
    while i < |rest|
      invariant 0 <= i <= |rest|
      invariant TopLevelFields(rest[i..], depth, cur, parts) == TopLevelFields(rest, 0, [], [])
    {
      assert rest[i..][1..] == rest[i + 1..];
      var c := rest[i];
      if c == '<' {
        depth := depth + 1;
      }
      if c == '>' {
        depth := depth - 1;
      }
      if c == ',' && depth == 0 {
        parts := parts + [cur];
        cur := "";
      } else {
        cur := cur + [c];
      }
      i := i + 1;
    }
    if cur != [] {
      parts := parts + [cur];
    }
  }

  // ---------------------------------------------------------------------
  // Dims and slices
  // ---------------------------------------------------------------------

  /** Three parsed integers as a Dim. The model reports the leftmost failure;
      C++ fixes no evaluation order for the three `parseInt` arguments. */
  function DimOfParts(t: string, parts: seq<string>): Result<Dim, ParseError>
  {
    if |parts| != 3 then Err(InvalidDim(t))
    else
      var start :- ParseInt(parts[0]);
      var end :- ParseInt(parts[1]);
      var stride :- ParseInt(parts[2]);
      Ok(Dim(start, end, stride))
  }

  /** `parseDim`: `start:end:stride`. */
  function ParsedDim(text: string): Result<Dim, ParseError>
  {
    var t := Trim(text);
    DimOfParts(t, ColonParts(t, [], []))
  }

  method ParseDim(text: string) returns (r: Result<Dim, ParseError>)
    ensures r == ParsedDim(text)
  {
    var t := Trim(text);
    var parts := SplitColons(t);
    r := DimOfParts(t, parts);
  }

  predicate Enclosed(t: string) {
    t != [] && t[0] == '<' && t[|t| - 1] == '>'
  }

  function SliceOfParts(inside: string, parts: seq<string>): Result<SliceOperand, ParseError>
  {
    if |parts| != 3 then Err(SliceFieldCount(inside))
    else
      var base :- ParseInt(parts[0]);
      var d1 :- ParsedDim(parts[1]);
      var d0 :- ParsedDim(parts[2]);
      Ok(Slice(base, d1, d0))
  }

  /** `parseSlice`: `<base, dim1, dim0>`. The C++ parser reads `t.front()` of an
      empty text, which is undefined; here that is a `SliceNotEnclosed` error. */
  function ParsedSlice(text: string): Result<SliceOperand, ParseError>
  {
    var t := Trim(text);
    if !Enclosed(t) then Err(SliceNotEnclosed(t))
    else
      var inside := t[1..|t| - 1];
      SliceOfParts(inside, SliceFields(inside, [], []))
  }

  method ParseSlice(text: string) returns (r: Result<SliceOperand, ParseError>)
    ensures r == ParsedSlice(text)
  {
    var t := Trim(text);
    if !Enclosed(t) {
      return Err(SliceNotEnclosed(t));
    }
    var inside := t[1..|t| - 1];
    var parts := SplitSliceFields(inside);
    if |parts| != 3 {
      return Err(SliceFieldCount(inside));
    }
    var base :- Wrap(ParseInt(parts[0]));
    var d1 :- ParseDim(parts[1]);
    var d0 :- ParseDim(parts[2]);
    r := Ok(Slice(base, d1, d0));
  }

  /** Lifts a function result into a method so that `:-` can use it. */
  method Wrap<T>(x: Result<T, ParseError>) returns (r: Result<T, ParseError>)
    ensures r == x
  {
    r := x;
  }

  // ---------------------------------------------------------------------
  // The three instruction parsers
  // ---------------------------------------------------------------------

  /** The text after an opcode prefix, trimmed. */
  function RestAfter(line: string, prefix: string): string
    requires StartsWith(line, prefix)
  {
    Trim(line[|prefix|..])
  }

  /** `cp_global_to_local <src>, <core>, <dst>` */
  function GlobalToLocalOfParts(rest: string, parts: seq<string>): Result<Op, ParseError>
  {
    if |parts| != 3 then Err(FieldCount(GlobalToLocalPrefix, rest))
    else
      var src :- ParsedSlice(parts[0]);
      var core :- ParseInt(parts[1]);
      var dst :- ParsedSlice(parts[2]);
      Ok(GlobalToLocal(core, src, dst))
  }

  /** `cp_local_to_global <core>, <src>, <dst>` */
  function LocalToGlobalOfParts(rest: string, parts: seq<string>): Result<Op, ParseError>
  {
    if |parts| != 3 then Err(FieldCount(LocalToGlobalPrefix, rest))
    else
      var core :- ParseInt(parts[0]);
      var src :- ParsedSlice(parts[1]);
      var dst :- ParsedSlice(parts[2]);
      Ok(LocalToGlobal(core, src, dst))
  }

  predicate OccursAt(s: string, pat: string, j: int) {
    0 <= j && j + |pat| <= |s| && s[j..j + |pat|] == pat
  }

  /** The first index at which `pat` occurs in `s`, at or after `from`. */
  function FindFrom(s: string, pat: string, from: nat): (r: Option<nat>)
    requires from <= |s|
    ensures r.Some? ==> from <= r.value && OccursAt(s, pat, r.value)
    ensures r.Some? ==> forall j :: from <= j < r.value ==> !OccursAt(s, pat, j)
    ensures r.None? ==> forall j :: from <= j ==> !OccursAt(s, pat, j)
    decreases |s| - from
  {
    if from + |pat| > |s| then None
    else if s[from..from + |pat|] == pat then Some(from)
    else FindFrom(s, pat, from + 1)
  }

  /** The `accumulator=` field: the trimmed text after the first occurrence of
      the key must be True/true or False/false. */
  function AccumulatorOf(field: string): Result<bool, ParseError>
  {
    var pos := FindFrom(field, AccumulatorKey, 0);
    if pos.None? then Err(MissingAccumulator)
    else
      var accStr := Trim(field[pos.value + |AccumulatorKey|..]);
      if accStr == "True" || accStr == "true" then Ok(true)
      else if accStr == "False" || accStr == "false" then Ok(false)
      else Err(InvalidAccumulator(accStr))
  }

  /** `matmul <core>, <mm_unit>, <A>, <B>, <C>, accumulator=<bool>` */
  function MatmulOfParts(rest: string, parts: seq<string>): Result<Op, ParseError>
  {
    if |parts| != 6 then Err(FieldCount(MatmulPrefix, rest))
    else
      var core :- ParseInt(parts[0]);
      var mmUnit :- ParseInt(parts[1]);
      var a :- ParsedSlice(parts[2]);
      var b :- ParsedSlice(parts[3]);
      var c :- ParsedSlice(parts[4]);
      var acc :- AccumulatorOf(parts[5]);
      Ok(Matmul(core, mmUnit, a, b, c, acc))
  }

  function ParsedGlobalToLocal(line: string): Result<Op, ParseError>
    requires StartsWith(line, GlobalToLocalPrefix)
  {
    var rest := RestAfter(line, GlobalToLocalPrefix);
    GlobalToLocalOfParts(rest, TopLevelFields(rest, 0, [], []))
  }

  function ParsedLocalToGlobal(line: string): Result<Op, ParseError>
    requires StartsWith(line, LocalToGlobalPrefix)
  {
    var rest := RestAfter(line, LocalToGlobalPrefix);
    LocalToGlobalOfParts(rest, TopLevelFields(rest, 0, [], []))
  }

  function ParsedMatmul(line: string): Result<Op, ParseError>
    requires StartsWith(line, MatmulPrefix)
  {
    var rest := RestAfter(line, MatmulPrefix);
    MatmulOfParts(rest, TopLevelFields(rest, 0, [], []))
  }

  method ParseGlobalToLocalMemCopy(line: string) returns (r: Result<Op, ParseError>)
    requires StartsWith(line, GlobalToLocalPrefix)
    ensures r == ParsedGlobalToLocal(line)
  {
    var rest := Trim(line[|GlobalToLocalPrefix|..]);
    var parts := SplitTopLevel(rest);
    if |parts| != 3 {
      return Err(FieldCount(GlobalToLocalPrefix, rest));
    }
    var src :- ParseSlice(parts[0]);
    var core :- Wrap(ParseInt(parts[1]));
    var dst :- ParseSlice(parts[2]);
    r := Ok(GlobalToLocal(core, src, dst));
  }

  method ParseLocalToGlobalMemCopy(line: string) returns (r: Result<Op, ParseError>)
    requires StartsWith(line, LocalToGlobalPrefix)
    ensures r == ParsedLocalToGlobal(line)
  {
    var rest := Trim(line[|LocalToGlobalPrefix|..]);
    var parts := SplitTopLevel(rest);
    if |parts| != 3 {
      return Err(FieldCount(LocalToGlobalPrefix, rest));
    }
    var core :- Wrap(ParseInt(parts[0]));
    var src :- ParseSlice(parts[1]);
    var dst :- ParseSlice(parts[2]);
    r := Ok(LocalToGlobal(core, src, dst));
  }

  method ParseMatmul(line: string) returns (r: Result<Op, ParseError>)
    requires StartsWith(line, MatmulPrefix)
    ensures r == ParsedMatmul(line)
  {
    var rest := Trim(line[|MatmulPrefix|..]);
    var parts := SplitTopLevel(rest);
    if |parts| != 6 {
      return Err(FieldCount(MatmulPrefix, rest));
    }
    var core :- Wrap(ParseInt(parts[0]));
    var mmUnit :- Wrap(ParseInt(parts[1]));
    var a :- ParseSlice(parts[2]);
    var b :- ParseSlice(parts[3]);
    var c :- ParseSlice(parts[4]);
    var acc :- Wrap(AccumulatorOf(parts[5]));
    r := Ok(Matmul(core, mmUnit, a, b, c, acc));
  }

  // ---------------------------------------------------------------------
  // The file loop
  // ---------------------------------------------------------------------

  /** One trimmed, non-empty line, dispatched on its prefix. Any other prefix,
      `start_parallel` and `end_parallel` included, is an error. */
  function ParsedLine(s: string): Result<Op, ParseError>
  {
    if StartsWith(s, GlobalToLocalPrefix) then ParsedGlobalToLocal(s)
    else if StartsWith(s, LocalToGlobalPrefix) then ParsedLocalToGlobal(s)
    else if StartsWith(s, MatmulPrefix) then ParsedMatmul(s)
    else Err(UnknownInstruction(s))
  }

  /** The ops of `lines` in order, skipping blank lines; the first error stops. */
  function ParsedProgram(lines: seq<string>): Result<seq<Op>, ParseError>
  {
    if lines == [] then Ok([])
    else
      var s := Trim(lines[0]);
      if s == [] then ParsedProgram(lines[1..])
      else
        var op :- ParsedLine(s);
        var rest :- ParsedProgram(lines[1..]);
        Ok([op] + rest)
  }

  /** `ops` followed by the result of parsing the remaining lines. */
  function Prepend(ops: seq<Op>, r: Result<seq<Op>, ParseError>): Result<seq<Op>, ParseError>
  {
    if r.Ok? then Ok(ops + r.value) else r
  }

  /** `std::getline` over the file text: lines end at '\n'; a final line
      without '\n' is still a line, and a final '\n' does not start one. */
  function GetLines(text: string, cur: string): seq<string>
    decreases |text|
  {
    if text == [] then (if cur == [] then [] else [cur])
    else if text[0] == '\n' then [cur] + GetLines(text[1..], [])
    else GetLines(text[1..], cur + [text[0]])
  }

  /** The prefix dispatch of the `parseFile` loop for one trimmed, non-empty line. */
  method ParseInstruction(s: string) returns (r: Result<Op, ParseError>)
    ensures r == ParsedLine(s)
  {
    if StartsWith(s, GlobalToLocalPrefix) {
      r := ParseGlobalToLocalMemCopy(s);
    } else if StartsWith(s, LocalToGlobalPrefix) {
      r := ParseLocalToGlobalMemCopy(s);
    } else if StartsWith(s, MatmulPrefix) {
      r := ParseMatmul(s);
    } else {
      r := Err(UnknownInstruction(s));
    }
  }

  lemma ParsedProgramStep(lines: seq<string>)
    requires lines != []
    ensures Trim(lines[0]) == [] ==> ParsedProgram(lines) == ParsedProgram(lines[1..])
    ensures Trim(lines[0]) != [] && ParsedLine(Trim(lines[0])).Err? ==>
              ParsedProgram(lines) == Err(ParsedLine(Trim(lines[0])).error)
    ensures Trim(lines[0]) != [] && ParsedLine(Trim(lines[0])).Ok? ==>
              ParsedProgram(lines) == Prepend([ParsedLine(Trim(lines[0])).value], ParsedProgram(lines[1..]))
  {
  }

  lemma PrependAppend(ops: seq<Op>, op: Op, r: Result<seq<Op>, ParseError>)
    ensures Prepend(ops, Prepend([op], r)) == Prepend(ops + [op], r)
  {
    if r.Ok? {
      assert ops + ([op] + r.value) == (ops + [op]) + r.value;
    }
  }

  lemma PrependEmpty(r: Result<seq<Op>, ParseError>)
    ensures Prepend([], r) == r
  {
    if r.Ok? {
      assert [] + r.value == r.value;
    }
  }

  /** `parseFile` on the lines of a file (opening the file is not modelled). */
  method ParseFile(lines: seq<string>) returns (r: Result<seq<Op>, ParseError>)
    ensures r == ParsedProgram(lines)
  {
    ghost var whole := ParsedProgram(lines);
    var parsedOps: seq<Op> := [];
    var i := 0;
    assert lines[0..] == lines;
    PrependEmpty(whole);
    while i < |lines|
      invariant 0 <= i <= |lines|
      invariant whole == Prepend(parsedOps, ParsedProgram(lines[i..]))
    {
      ghost var tail := lines[i..];
      assert tail[0] == lines[i] && tail[1..] == lines[i + 1..];
      ParsedProgramStep(tail);
      var s := Trim(lines[i]);
      if s != [] {
        var instr := ParseInstruction(s);
        if instr.Err? {
          return Err(instr.error);
        }
        assert ParsedProgram(tail) == Prepend([instr.value], ParsedProgram(lines[i + 1..]));
        PrependAppend(parsedOps, instr.value, ParsedProgram(lines[i + 1..]));
        parsedOps := parsedOps + [instr.value];
        assert whole == Prepend(parsedOps, ParsedProgram(lines[i + 1..]));
      } else {
        assert ParsedProgram(tail) == ParsedProgram(lines[i + 1..]);
        assert whole == Prepend(parsedOps, ParsedProgram(lines[i + 1..]));
      }
      i := i + 1;
    }
    assert lines[i..] == [];
    assert parsedOps + [] == parsedOps;
    r := Ok(parsedOps);
  }
}
