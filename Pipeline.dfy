/** How the three tools fit together: the text the code generator prints,
    the assembly parser that reads such text back, and the simulator that
    runs the parsed instructions.

    - Every copy and matmul instruction the generator can print parses back
      to itself.
    - Every generated program starts with `start_parallel`, which the parser
      rejects; a parser that also accepts the two markers reads the whole
      program back.
    - Every generated program consists only of parallel blocks, so the
      as-written dispatcher runs none of it; the flushing dispatcher runs
      all of it, in program order. */
module Pipeline {
  import opened Wrappers
  import opened Isa
  import opened AsmParser
  import opened CodeGen
  import opened EpuSimulator

  // ---------------------------------------------------------------------
  // Numbers
  // ---------------------------------------------------------------------

  predicate Int32(n: int) {
    IntMin <= n <= IntMax
  }

  predicate DimFits(d: Dim) {
    Int32(d.start) && Int32(d.end) && Int32(d.stride)
  }

  predicate SliceFits(s: SliceOperand) {
    Int32(s.base) && DimFits(s.dim1) && DimFits(s.dim0)
  }

  /** Every integer field of the instruction is a C++ `int`. */
  predicate OpFits(op: Op) {
    match op
    case GlobalToLocal(core, src, dst) => Int32(core) && SliceFits(src) && SliceFits(dst)
    case LocalToGlobal(core, src, dst) => Int32(core) && SliceFits(src) && SliceFits(dst)
    case Matmul(core, unit, a, b, c, _) => Int32(core) && Int32(unit) && SliceFits(a) && SliceFits(b) && SliceFits(c)
    case StartParallel => true
    case EndParallel => true
  }

  /** Text made of digits and minus signs only. */
  predicate NumberText(s: string) {
    forall i :: 0 <= i < |s| ==> IsDigit(s[i]) || s[i] == '-'
  }

  lemma {:induction false} NatToStringDigits(n: nat)
    ensures |NatToString(n)| > 0 && AllDigits(NatToString(n))
    ensures DigitsValue(NatToString(n)) == n
  {
    var s := NatToString(n);
    if n >= 10 {
      NatToStringDigits(n / 10);
      assert s[..|s| - 1] == NatToString(n / 10);
    }
  }

  lemma {:induction false} DigitPrefixOfDigits(s: string)
    requires AllDigits(s)
    ensures DigitPrefix(s) == s
  {
    if s != [] {
      DigitPrefixOfDigits(s[1..]);
    }
  }

  /** `std::to_string` prints a non-empty run of digits, perhaps after a
      minus sign, and ends with a digit. */
  lemma IntToStringShape(n: int)
    ensures var s := IntToString(n);
      |s| > 0 && NumberText(s) && IsDigit(s[|s| - 1]) && (IsDigit(s[0]) || s[0] == '-')
  {
    NatToStringDigits(if n < 0 then -n else n);
  }

  lemma StoiDigits(ds: string)
    requires ds != [] && AllDigits(ds) && DigitsValue(ds) <= IntMax
    ensures Stoi(ds) == Ok(DigitsValue(ds))
  {
    assert IsDigit(ds[0]);
    assert SkipCSpace(ds) == ds;
    DigitPrefixOfDigits(ds);
  }

  lemma StoiMinusDigits(ds: string)
    requires ds != [] && AllDigits(ds) && DigitsValue(ds) <= -IntMin
    ensures Stoi("-" + ds) == Ok(-(DigitsValue(ds) as int))
  {
    var s := "-" + ds;
    assert SkipCSpace(s) == s;
    assert s[1..] == ds;
    DigitPrefixOfDigits(ds);
  }

  /** `stoi` reads back what `std::to_string` printed, for every `int`. */
  lemma StoiToString(n: int)
    requires Int32(n)
    ensures Stoi(IntToString(n)) == Ok(n)
  {
    if n < 0 {
      NatToStringDigits(-n);
      StoiMinusDigits(NatToString(-n));
    } else {
      NatToStringDigits(n);
      StoiDigits(NatToString(n));
    }
  }

  // ---------------------------------------------------------------------
  // trim
  // ---------------------------------------------------------------------

  /** Text that neither starts nor ends with white space. */
  predicate Clean(s: string) {
    s != [] && !IsTrimSpace(s[0]) && !IsTrimSpace(s[|s| - 1])
  }

  /** `trim` keeps clean text, and strips one leading blank from it. */
  lemma TrimClean(s: string)
    requires Clean(s)
    ensures Trim(s) == s && Trim(" " + s) == s
  {
    TrimSpec(s);
    TrimSpec(" " + s);
    assert FirstNotSpace(s, 0) == 0;
    assert !AllTrimSpace(s) by {
      assert !IsTrimSpace(s[0]);
    }
    assert !IsTrimSpace(s[|s| - 1]);
    var s' := " " + s;
    assert s'[1] == s[0] && s'[|s'| - 1] == s[|s| - 1];
    assert FirstNotSpace(s', 1) == 1;
    assert FirstNotSpace(s', 0) == 1;
    assert !AllTrimSpace(s') by {
      assert !IsTrimSpace(s'[1]);
    }
    assert !IsTrimSpace(s'[|s'| - 1]);
    assert s'[1..] == s;
  }

  /** `trim` is idempotent: trimmed text is left as it is. */
  lemma TrimIdempotent(s: string)
    ensures Trim(Trim(s)) == Trim(s)
  {
    TrimSpec(s);
    if Trim(s) != [] {
      TrimClean(Trim(s));
    } else {
      TrimSpec([]);
    }
  }

  lemma ParseIntToString(n: int)
    requires Int32(n)
    ensures ParseInt(IntToString(n)) == Ok(n) && ParseInt(" " + IntToString(n)) == Ok(n)
  {
    IntToStringShape(n);
    TrimClean(IntToString(n));
    StoiToString(n);
  }

  // ---------------------------------------------------------------------
  // Dims and slices
  // ---------------------------------------------------------------------

  predicate Avoids(s: string, ch: char) {
    forall i :: 0 <= i < |s| ==> s[i] != ch
  }

  lemma AvoidsAppend(a: string, b: string, ch: char)
    requires Avoids(a, ch) && Avoids(b, ch)
    ensures Avoids(a + b, ch)
  {
    assert forall i :: 0 <= i < |a + b| ==> (a + b)[i] == if i < |a| then a[i] else b[i - |a|];
  }

  /** A printed number contains none of the parser's separators. */
  lemma NumberTextAvoids(s: string)
    requires NumberText(s)
    ensures Avoids(s, ':') && Avoids(s, ',') && Avoids(s, '<') && Avoids(s, '>') && Avoids(s, '\n')
  {
  }

  lemma {:induction false} ColonPartsPlain(t: string, rest: string, cur: string, parts: seq<string>)
    requires Avoids(t, ':')
    ensures ColonParts(t + rest, cur, parts) == ColonParts(rest, cur + t, parts)
    decreases |t|
  {
    if t == [] {
      assert t + rest == rest && cur + t == cur;
    } else {
      assert (t + rest)[1..] == t[1..] + rest;
      ColonPartsPlain(t[1..], rest, cur + [t[0]], parts);
      assert cur + [t[0]] + t[1..] == cur + t;
    }
  }

  /** One field of the colon loop: the text up to the next ':' becomes a part. */
  lemma ColonField(t: string, rest: string, parts: seq<string>)
    requires Avoids(t, ':')
    ensures ColonParts(t + (":" + rest), [], parts) == ColonParts(rest, [], parts + [t])
  {
    ColonPartsPlain(t, ":" + rest, [], parts);
    assert [] + t == t;
    assert (":" + rest)[1..] == rest;
  }

  lemma ColonRegroup(a: string, b: string, c: string)
    ensures a + ":" + b + ":" + c == a + (":" + (b + (":" + c)))
  {
  }

  /** The colon loop splits `a:b:c` into its three parts. */
  lemma ColonSplit3(a: string, b: string, c: string)
    requires Avoids(a, ':') && Avoids(b, ':') && Avoids(c, ':')
    ensures ColonParts(a + ":" + b + ":" + c, [], []) == [a, b, c]
  {
    ColonRegroup(a, b, c);
    calc {
      ColonParts(a + (":" + (b + (":" + c))), [], []);
      { ColonField(a, b + (":" + c), []); assert [] + [a] == [a]; }
      ColonParts(b + (":" + c), [], [a]);
      { ColonField(b, c, [a]); assert [a] + [b] == [a, b]; }
      ColonParts(c, [], [a, b]);
      { ColonLast(c, [a, b]); assert [a, b] + [c] == [a, b, c]; }
      [a, b, c];
    }
  }

  /** The last field of the colon loop ends the parts. */
  lemma ColonLast(c: string, parts: seq<string>)
    requires Avoids(c, ':')
    ensures ColonParts(c, [], parts) == parts + [c]
  {
    ColonPartsPlain(c, [], [], parts);
    assert c + [] == c && [] + c == c;
  }

  lemma PrintDimShape(d: Dim)
    ensures Clean(PrintDim(d))
    ensures Avoids(PrintDim(d), ',') && Avoids(PrintDim(d), '<') && Avoids(PrintDim(d), '>')
    ensures Avoids(PrintDim(d), '\n')
    ensures ColonParts(PrintDim(d), [], []) == [IntToString(d.start), IntToString(d.end), IntToString(d.stride)]
  {
    var a, b, c := IntToString(d.start), IntToString(d.end), IntToString(d.stride);
    IntToStringShape(d.start);
    IntToStringShape(d.end);
    IntToStringShape(d.stride);
    NumberTextAvoids(a);
    NumberTextAvoids(b);
    NumberTextAvoids(c);
    ColonSplit3(a, b, c);
    var p := PrintDim(d);
    assert p == a + ":" + b + ":" + c;
    assert p[0] == a[0] && p[|p| - 1] == c[|c| - 1];
    forall ch | ch in ",<>\n"
      ensures Avoids(p, ch)
    {
      AvoidsAppend(a, ":", ch);
      AvoidsAppend(a + ":", b, ch);
      AvoidsAppend(a + ":" + b, ":", ch);
      AvoidsAppend(a + ":" + b + ":", c, ch);
    }
  }

  /** `parseDim` reads back what the generator prints for a dim. */
  lemma DimRoundTrip(d: Dim)
    requires DimFits(d)
    ensures ParsedDim(PrintDim(d)) == Ok(d) && ParsedDim(" " + PrintDim(d)) == Ok(d)
  {
    PrintDimShape(d);
    TrimClean(PrintDim(d));
    ParseIntToString(d.start);
    ParseIntToString(d.end);
    ParseIntToString(d.stride);
  }

  lemma {:induction false} SliceFieldsPlain(t: string, rest: string, cur: string, parts: seq<string>)
    requires Avoids(t, ',')
    ensures SliceFields(t + rest, cur, parts) == SliceFields(rest, cur + t, parts)
    decreases |t|
  {
    if t == [] {
      assert t + rest == rest && cur + t == cur;
    } else {
      assert (t + rest)[1..] == t[1..] + rest;
      SliceFieldsPlain(t[1..], rest, cur + [t[0]], parts);
      assert cur + [t[0]] + t[1..] == cur + t;
    }
  }

  /** One field of the slice-field loop: the text up to the next ',' is
      trimmed and appended to the fields. */
  lemma SliceFieldsField(t: string, rest: string, cur: string, parts: seq<string>)
    requires Avoids(t, ',')
    ensures SliceFields(t + ("," + rest), cur, parts) == SliceFields(rest, [], parts + [Trim(cur + t)])
  {
    SliceFieldsPlain(t, "," + rest, cur, parts);
    assert ("," + rest)[1..] == rest;
  }

  /** The slice-field loop cuts its text at the two commas. */
  lemma SliceCut3(a: string, b: string, c: string)
    requires Avoids(a, ',') && Avoids(b, ',') && Avoids(c, ',') && c != []
    ensures SliceFields(a + ("," + (b + ("," + c))), [], []) == [Trim(a), Trim(b), Trim(c)]
  {
    var ta, tb, tc := Trim(a), Trim(b), Trim(c);
    SliceFieldsField(a, b + ("," + c), [], []);
    assert [] + a == a;
    assert [] + [ta] == [ta];
    SliceFieldsField(b, c, [], [ta]);
    assert [] + b == b;
    assert [ta] + [tb] == [ta, tb];
    SliceFieldsPlain(c, [], [], [ta, tb]);
    assert c + [] == c && [] + c == c;
    assert [ta, tb] + [tc] == [ta, tb, tc];
  }

  /** The slice-field loop splits `a, b, c` into its three trimmed fields. */
  lemma SliceSplit3(a: string, b: string, c: string)
    requires Avoids(a, ',') && Avoids(b, ',') && Avoids(c, ',')
    requires Clean(a) && Clean(b) && Clean(c)
    ensures SliceFields(a + ", " + b + ", " + c, [], []) == [a, b, c]
  {
    assert a + ", " + b + ", " + c == a + ("," + (" " + b + ("," + (" " + c))));
    assert Avoids(" ", ',');
    AvoidsAppend(" ", b, ',');
    AvoidsAppend(" ", c, ',');
    SliceCut3(a, " " + b, " " + c);
    TrimClean(a);
    TrimClean(b);
    TrimClean(c);
  }

  /** The text between `<` and `>` of a printed slice. */
  function SliceInner(s: SliceOperand): string {
    IntToString(s.base) + ", " + PrintDim(s.dim1) + ", " + PrintDim(s.dim0)
  }

  lemma SliceInnerShape(s: SliceOperand)
    ensures PrintSlice(s) == "<" + SliceInner(s) + ">"
    ensures Avoids(SliceInner(s), '<') && Avoids(SliceInner(s), '>') && Avoids(SliceInner(s), '\n')
    ensures SliceFields(SliceInner(s), [], []) == [IntToString(s.base), PrintDim(s.dim1), PrintDim(s.dim0)]
  {
    var a, d1, d0 := IntToString(s.base), PrintDim(s.dim1), PrintDim(s.dim0);
    IntToStringShape(s.base);
    NumberTextAvoids(a);
    PrintDimShape(s.dim1);
    PrintDimShape(s.dim0);
    assert Clean(a);
    SliceSplit3(a, d1, d0);
    AngleRegroup(a, d1, d0);
    ListAvoids(a, d1, d0, '<');
    ListAvoids(a, d1, d0, '>');
    ListAvoids(a, d1, d0, '\n');
  }

  lemma AngleRegroup(a: string, b: string, c: string)
    ensures "<" + a + ", " + b + ", " + c + ">" == "<" + (a + ", " + b + ", " + c) + ">"
  {
  }

  /** Three fields joined by ", " avoid a character that none of them holds
      and that is neither ',' nor ' '. */
  lemma ListAvoids(a: string, b: string, c: string, ch: char)
    requires Avoids(a, ch) && Avoids(b, ch) && Avoids(c, ch) && ch != ',' && ch != ' '
    ensures Avoids(a + ", " + b + ", " + c, ch)
  {
    assert Avoids(", ", ch);
    AvoidsAppend(a, ", ", ch);
    AvoidsAppend(a + ", ", b, ch);
    AvoidsAppend(a + ", " + b, ", ", ch);
    AvoidsAppend(a + ", " + b + ", ", c, ch);
  }

  lemma PrintSliceClean(s: SliceOperand)
    ensures Clean(PrintSlice(s))
  {
    SliceInnerShape(s);
  }

  /** `parseSlice` reads back what the generator prints for a slice. */
  lemma SliceRoundTrip(s: SliceOperand)
    requires SliceFits(s)
    ensures ParsedSlice(PrintSlice(s)) == Ok(s) && ParsedSlice(" " + PrintSlice(s)) == Ok(s)
  {
    var t := PrintSlice(s);
    var inner := SliceInner(s);
    SliceInnerShape(s);
    TrimClean(t);
    assert t[1..|t| - 1] == inner;
    var fs := SliceFields(inner, [], []);
    ThreeFields(fs, IntToString(s.base), PrintDim(s.dim1), PrintDim(s.dim0));
    ParseIntToString(s.base);
    DimRoundTrip(s.dim1);
    DimRoundTrip(s.dim0);
    SliceFields3(inner, fs, s);
    SliceOfTrimmed(t, " " + t);
  }

  lemma ThreeFields(fs: seq<string>, f0: string, f1: string, f2: string)
    requires fs == [f0, f1, f2]
    ensures |fs| == 3 && fs[0] == f0 && fs[1] == f1 && fs[2] == f2
  {
  }

  lemma SliceFields3(inside: string, parts: seq<string>, s: SliceOperand)
    requires |parts| == 3 && ParseInt(parts[0]) == Ok(s.base)
    requires ParsedDim(parts[1]) == Ok(s.dim1) && ParsedDim(parts[2]) == Ok(s.dim0)
    ensures SliceOfParts(inside, parts) == Ok(s)
  {
  }

  /** `parseSlice` reads only the trimmed text. */
  lemma SliceOfTrimmed(a: string, b: string)
    requires Trim(a) == Trim(b)
    ensures ParsedSlice(a) == ParsedSlice(b)
  {
  }

  // ---------------------------------------------------------------------
  // Instructions
  // ---------------------------------------------------------------------

  /** Text with no separator of the instruction parsers. */
  predicate PlainText(t: string) {
    Avoids(t, '<') && Avoids(t, '>') && Avoids(t, ',')
  }

  /** Text of the form `<...>` with no bracket inside. */
  predicate SliceText(t: string) {
    |t| >= 2 && t[0] == '<' && t[|t| - 1] == '>' && Avoids(t[1..|t| - 1], '<') && Avoids(t[1..|t| - 1], '>')
  }

  lemma PrintSliceText(s: SliceOperand)
    ensures SliceText(PrintSlice(s))
  {
    SliceInnerShape(s);
    var t := PrintSlice(s);
    assert t[1..|t| - 1] == SliceInner(s);
  }

  lemma {:induction false} TopLevelPlain(t: string, rest: string, depth: int, cur: string, parts: seq<string>)
    requires Avoids(t, '<') && Avoids(t, '>') && (depth != 0 || Avoids(t, ','))
    ensures TopLevelFields(t + rest, depth, cur, parts) == TopLevelFields(rest, depth, cur + t, parts)
    decreases |t|
  {
    if t == [] {
      assert t + rest == rest && cur + t == cur;
    } else {
      assert (t + rest)[1..] == t[1..] + rest;
      TopLevelPlain(t[1..], rest, depth, cur + [t[0]], parts);
      assert cur + [t[0]] + t[1..] == cur + t;
    }
  }

  /** A slice is read whole: its commas sit inside `<` `>`. */
  lemma TopLevelSlice(t: string, rest: string, cur: string, parts: seq<string>)
    requires SliceText(t)
    ensures TopLevelFields(t + rest, 0, cur, parts) == TopLevelFields(rest, 0, cur + t, parts)
  {
    var inner := t[1..|t| - 1];
    var tail := ">" + rest;
    assert t + rest == "<" + (inner + tail);
    assert ("<" + (inner + tail))[1..] == inner + tail;
    assert TopLevelFields("<" + (inner + tail), 0, cur, parts) == TopLevelFields(inner + tail, 1, cur + "<", parts);
    TopLevelPlain(inner, tail, 1, cur + "<", parts);
    assert tail[1..] == rest;
    assert TopLevelFields(tail, 1, cur + "<" + inner, parts) == TopLevelFields(rest, 0, cur + "<" + inner + ">", parts);
    assert cur + "<" + inner + ">" == cur + t;
  }

  /** A field of plain text, perhaps with a slice after it, ends at the next
      top-level comma. */
  lemma FieldThenComma(lead: string, t: string, rest: string, parts: seq<string>)
    requires PlainText(lead) && (t == [] || SliceText(t))
    ensures TopLevelFields(lead + t + ("," + rest), 0, [], parts) == TopLevelFields(rest, 0, [], parts + [lead + t])
  {
    assert lead + t + ("," + rest) == lead + (t + ("," + rest));
    TopLevelPlain(lead, t + ("," + rest), 0, [], parts);
    assert [] + lead == lead;
    if t == [] {
      assert t + ("," + rest) == "," + rest && lead + t == lead;
    } else {
      TopLevelSlice(t, "," + rest, lead, parts);
    }
    assert ("," + rest)[1..] == rest;
  }

  /** The last field is kept when it is not empty. */
  lemma LastField(lead: string, t: string, parts: seq<string>)
    requires PlainText(lead) && (t == [] || SliceText(t)) && lead + t != []
    ensures TopLevelFields(lead + t, 0, [], parts) == parts + [lead + t]
  {
    TopLevelPlain(lead, t, 0, [], parts);
    assert [] + lead == lead;
    if t == [] {
      assert lead + t == lead;
    } else {
      TopLevelSlice(t, [], lead, parts);
      assert t + [] == t;
    }
    assert TopLevelFields([], 0, lead + t, parts) == parts + [lead + t];
  }

  lemma BlankPlain()
    ensures PlainText("") && PlainText(" ")
  {
  }

  lemma NumberPlain(n: int)
    ensures PlainText(IntToString(n)) && PlainText(" " + IntToString(n))
    ensures Clean(IntToString(n))
  {
    IntToStringShape(n);
    NumberTextAvoids(IntToString(n));
    forall ch | ch in "<>,"
      ensures Avoids(" " + IntToString(n), ch)
    {
      assert Avoids(" ", ch);
      AvoidsAppend(" ", IntToString(n), ch);
    }
  }

  /** The text after the opcode: a blank, then the operands. */
  lemma RestOfLine(prefix: string, operands: string)
    requires Clean(operands)
    ensures StartsWith(prefix + " " + operands, prefix)
    ensures RestAfter(prefix + " " + operands, prefix) == operands
  {
    var line := prefix + " " + operands;
    assert line[..|prefix|] == prefix;
    assert line[|prefix|..] == " " + operands;
    TrimClean(operands);
  }

  /** `<src>, core, <dst>` splits into its three fields. */
  lemma SliceNumberSlice(s1: string, i: string, s2: string)
    requires SliceText(s1) && PlainText(i) && i != [] && SliceText(s2)
    ensures TopLevelFields(s1 + ", " + i + ", " + s2, 0, [], []) == [s1, " " + i, " " + s2]
  {
    BlankPlain();
    assert PlainText(" " + i) by {
      AvoidsAppend(" ", i, '<');
      AvoidsAppend(" ", i, '>');
      AvoidsAppend(" ", i, ',');
    }
    assert s1 + ", " + i + ", " + s2 == "" + s1 + ("," + (" " + i + [] + ("," + (" " + s2))));
    FieldThenComma("", s1, " " + i + [] + ("," + (" " + s2)), []);
    assert "" + s1 == s1 && [] + [s1] == [s1];
    FieldThenComma(" " + i, [], " " + s2, [s1]);
    assert " " + i + [] == " " + i;
    assert [s1] + [" " + i] == [s1, " " + i];
    LastField(" ", s2, [s1, " " + i]);
    assert [s1, " " + i] + [" " + s2] == [s1, " " + i, " " + s2];
  }

  /** `core, <src>, <dst>` splits into its three fields. */
  lemma NumberSliceSlice(i: string, s1: string, s2: string)
    requires PlainText(i) && i != [] && SliceText(s1) && SliceText(s2)
    ensures TopLevelFields(i + ", " + s1 + ", " + s2, 0, [], []) == [i, " " + s1, " " + s2]
  {
    BlankPlain();
    assert i + ", " + s1 + ", " + s2 == i + [] + ("," + (" " + s1 + ("," + (" " + s2))));
    FieldThenComma(i, [], " " + s1 + ("," + (" " + s2)), []);
    assert i + [] == i && [] + [i] == [i];
    FieldThenComma(" ", s1, " " + s2, [i]);
    assert [i] + [" " + s1] == [i, " " + s1];
    LastField(" ", s2, [i, " " + s1]);
    assert [i, " " + s1] + [" " + s2] == [i, " " + s1, " " + s2];
  }

  /** A line that starts with the `cp_global_to_local` opcode goes to its parser. */
  lemma DispatchGlobalToLocal(operands: string)
    requires Clean(operands)
    ensures ParsedLine(GlobalToLocalPrefix + " " + operands)
         == GlobalToLocalOfParts(operands, TopLevelFields(operands, 0, [], []))
  {
    RestOfLine(GlobalToLocalPrefix, operands);
  }

  /** A line that starts with the `cp_local_to_global` opcode goes to its parser. */
  lemma DispatchLocalToGlobal(operands: string)
    requires Clean(operands)
    ensures ParsedLine(LocalToGlobalPrefix + " " + operands)
         == LocalToGlobalOfParts(operands, TopLevelFields(operands, 0, [], []))
  {
    var line := LocalToGlobalPrefix + " " + operands;
    RestOfLine(LocalToGlobalPrefix, operands);
    assert line[3] == 'l';
  }

  /** A line that starts with the `matmul` opcode goes to its parser. */
  lemma DispatchMatmul(operands: string)
    requires Clean(operands)
    ensures ParsedLine(MatmulPrefix + " " + operands)
         == MatmulOfParts(operands, TopLevelFields(operands, 0, [], []))
  {
    var line := MatmulPrefix + " " + operands;
    RestOfLine(MatmulPrefix, operands);
    assert line[0] == 'm';
    assert !StartsWith(line, GlobalToLocalPrefix) by {
      if |GlobalToLocalPrefix| <= |line| {
        assert line[..|GlobalToLocalPrefix|][0] == 'm';
      }
    }
    assert !StartsWith(line, LocalToGlobalPrefix) by {
      if |LocalToGlobalPrefix| <= |line| {
        assert line[..|LocalToGlobalPrefix|][0] == 'm';
      }
    }
  }

  /** The copy opcodes as printed are the parser's prefixes and a blank. */
  lemma CopyOpcodes()
    ensures "cp_global_to_local " == GlobalToLocalPrefix + " "
    ensures "cp_local_to_global " == LocalToGlobalPrefix + " "
  {
  }

  lemma CopyRegroup(h: string, a: string, b: string, c: string)
    ensures h + a + ", " + b + ", " + c == h + (a + ", " + b + ", " + c)
  {
  }

  lemma PrintGlobalToLocal(core: int, src: SliceOperand, dst: SliceOperand)
    ensures PrintOp(GlobalToLocal(core, src, dst))
         == GlobalToLocalPrefix + " " + (PrintSlice(src) + ", " + IntToString(core) + ", " + PrintSlice(dst))
  {
    CopyOpcodes();
    CopyRegroup("cp_global_to_local ", PrintSlice(src), IntToString(core), PrintSlice(dst));
  }

  lemma PrintLocalToGlobal(core: int, src: SliceOperand, dst: SliceOperand)
    ensures PrintOp(LocalToGlobal(core, src, dst))
         == LocalToGlobalPrefix + " " + (IntToString(core) + ", " + PrintSlice(src) + ", " + PrintSlice(dst))
  {
    CopyOpcodes();
    CopyRegroup("cp_local_to_global ", IntToString(core), PrintSlice(src), PrintSlice(dst));
  }

  lemma GlobalToLocalFields(rest: string, f0: string, f1: string, f2: string,
                            core: int, src: SliceOperand, dst: SliceOperand)
    requires ParsedSlice(f0) == Ok(src) && ParseInt(f1) == Ok(core) && ParsedSlice(f2) == Ok(dst)
    ensures GlobalToLocalOfParts(rest, [f0, f1, f2]) == Ok(GlobalToLocal(core, src, dst))
  {
  }

  lemma LocalToGlobalFields(rest: string, f0: string, f1: string, f2: string,
                            core: int, src: SliceOperand, dst: SliceOperand)
    requires ParseInt(f0) == Ok(core) && ParsedSlice(f1) == Ok(src) && ParsedSlice(f2) == Ok(dst)
    ensures LocalToGlobalOfParts(rest, [f0, f1, f2]) == Ok(LocalToGlobal(core, src, dst))
  {
  }

  /** `parseGlobalToLocalMemCopy` reads back a printed `cp_global_to_local`. */
  lemma GlobalToLocalRoundTrip(core: int, src: SliceOperand, dst: SliceOperand)
    requires Int32(core) && SliceFits(src) && SliceFits(dst)
    ensures ParsedLine(PrintOp(GlobalToLocal(core, src, dst))) == Ok(GlobalToLocal(core, src, dst))
  {
    var s1, i, s2 := PrintSlice(src), IntToString(core), PrintSlice(dst);
    var operands := s1 + ", " + i + ", " + s2;
    PrintSliceText(src);
    PrintSliceText(dst);
    NumberPlain(core);
    SliceNumberSlice(s1, i, s2);
    assert Clean(operands) by {
      assert operands[0] == s1[0] && operands[|operands| - 1] == s2[|s2| - 1];
    }
    SliceRoundTrip(src);
    SliceRoundTrip(dst);
    ParseIntToString(core);
    calc {
      ParsedLine(PrintOp(GlobalToLocal(core, src, dst)));
      { PrintGlobalToLocal(core, src, dst); }
      ParsedLine(GlobalToLocalPrefix + " " + operands);
      { DispatchGlobalToLocal(operands); }
      GlobalToLocalOfParts(operands, [s1, " " + i, " " + s2]);
      { GlobalToLocalFields(operands, s1, " " + i, " " + s2, core, src, dst); }
      Ok(GlobalToLocal(core, src, dst));
    }
  }

  /** `parseLocalToGlobalMemCopy` reads back a printed `cp_local_to_global`. */
  lemma LocalToGlobalRoundTrip(core: int, src: SliceOperand, dst: SliceOperand)
    requires Int32(core) && SliceFits(src) && SliceFits(dst)
    ensures ParsedLine(PrintOp(LocalToGlobal(core, src, dst))) == Ok(LocalToGlobal(core, src, dst))
  {
    var i, s1, s2 := IntToString(core), PrintSlice(src), PrintSlice(dst);
    var operands := i + ", " + s1 + ", " + s2;
    PrintSliceText(src);
    PrintSliceText(dst);
    NumberPlain(core);
    NumberSliceSlice(i, s1, s2);
    assert Clean(operands) by {
      assert operands[0] == i[0] && operands[|operands| - 1] == s2[|s2| - 1];
    }
    SliceRoundTrip(src);
    SliceRoundTrip(dst);
    ParseIntToString(core);
    calc {
      ParsedLine(PrintOp(LocalToGlobal(core, src, dst)));
      { PrintLocalToGlobal(core, src, dst); }
      ParsedLine(LocalToGlobalPrefix + " " + operands);
      { DispatchLocalToGlobal(operands); }
      LocalToGlobalOfParts(operands, [i, " " + s1, " " + s2]);
      { LocalToGlobalFields(operands, i, " " + s1, " " + s2, core, src, dst); }
      Ok(LocalToGlobal(core, src, dst));
    }
  }

  /** The printed `accumulator=` field reads back as the flag it was printed from. */
  lemma AccumulatorWord(acc: bool)
    ensures AccumulatorOf(" accumulator=" + (if acc then "True" else "False")) == Ok(acc)
  {
    var w := if acc then "True" else "False";
    var field := " accumulator=" + w;
    assert !OccursAt(field, AccumulatorKey, 0) by {
      assert field[0] != AccumulatorKey[0];
    }
    assert field[1..1 + |AccumulatorKey|] == AccumulatorKey;
    assert FindFrom(field, AccumulatorKey, 0) == Some(1) by {
      assert FindFrom(field, AccumulatorKey, 1) == Some(1);
    }
    assert field[1 + |AccumulatorKey|..] == w;
    TrimClean(w);
  }

  lemma AccumulatorPlain(acc: bool)
    ensures PlainText(" accumulator=" + (if acc then "True" else "False"))
  {
  }

  lemma MatmulOperandsRegroup(i1: string, i2: string, sa: string, sb: string, sc: string, acc: string)
    ensures i1 + ", " + i2 + ", " + sa + ", " + sb + ", " + sc + "," + acc
         == i1 + [] + ("," + (" " + i2 + [] + ("," + (" " + sa + ("," + (" " + sb + ("," + (" " + sc + ("," + acc)))))))))
  {
  }

  lemma MatmulLineRegroup(i1: string, i2: string, sa: string, sb: string, sc: string, w: string)
    ensures "matmul " + i1 + ", " + i2 + ", " + sa + ", " + sb + ", " + sc + ", accumulator=" + w
         == MatmulPrefix + " " + (i1 + ", " + i2 + ", " + sa + ", " + sb + ", " + sc + "," + (" accumulator=" + w))
  {
    MatmulWords();
    MatmulRegroup("matmul ", i1, i2, sa, sb, sc, ", accumulator=", " accumulator=", w);
  }

  lemma MatmulWords()
    ensures "matmul " == MatmulPrefix + " " && ", accumulator=" == "," + " accumulator="
  {
  }

  lemma MatmulRegroup(h: string, i1: string, i2: string, sa: string, sb: string, sc: string,
                      t0: string, t1: string, w: string)
    requires t0 == "," + t1
    ensures h + i1 + ", " + i2 + ", " + sa + ", " + sb + ", " + sc + t0 + w
         == h + (i1 + ", " + i2 + ", " + sa + ", " + sb + ", " + sc + "," + (t1 + w))
  {
  }

  /** `core, unit, <A>, <B>, <C>, accumulator=w` splits into its six fields. */
  lemma MatmulSplit(i1: string, i2: string, sa: string, sb: string, sc: string, acc: string)
    requires PlainText(i1) && i1 != [] && PlainText(" " + i2)
    requires SliceText(sa) && SliceText(sb) && SliceText(sc)
    requires PlainText(acc) && acc != []
    ensures TopLevelFields(i1 + ", " + i2 + ", " + sa + ", " + sb + ", " + sc + "," + acc, 0, [], [])
         == [i1, " " + i2, " " + sa, " " + sb, " " + sc, acc]
  {
    BlankPlain();
    var r4 := " " + sc + ("," + acc);
    var r3 := " " + sb + ("," + r4);
    var r2 := " " + sa + ("," + r3);
    var r1 := " " + i2 + [] + ("," + r2);
    MatmulOperandsRegroup(i1, i2, sa, sb, sc, acc);
    FieldThenComma(i1, [], r1, []);
    assert i1 + [] == i1 && [] + [i1] == [i1];
    FieldThenComma(" " + i2, [], r2, [i1]);
    assert " " + i2 + [] == " " + i2;
    var p2 := [i1, " " + i2];
    assert [i1] + [" " + i2] == p2;
    FieldThenComma(" ", sa, r3, p2);
    var p3 := [i1, " " + i2, " " + sa];
    assert p2 + [" " + sa] == p3;
    FieldThenComma(" ", sb, r4, p3);
    var p4 := [i1, " " + i2, " " + sa, " " + sb];
    assert p3 + [" " + sb] == p4;
    FieldThenComma(" ", sc, acc, p4);
    var p5 := [i1, " " + i2, " " + sa, " " + sb, " " + sc];
    assert p4 + [" " + sc] == p5;
    LastField(acc, [], p5);
    assert acc + [] == acc;
    assert p5 + [acc] == [i1, " " + i2, " " + sa, " " + sb, " " + sc, acc];
  }

  lemma MatmulFields(rest: string, parts: seq<string>,
                     core: int, unit: int, a: SliceOperand, b: SliceOperand, c: SliceOperand, acc: bool)
    requires |parts| == 6
    requires ParseInt(parts[0]) == Ok(core) && ParseInt(parts[1]) == Ok(unit)
    requires ParsedSlice(parts[2]) == Ok(a) && ParsedSlice(parts[3]) == Ok(b) && ParsedSlice(parts[4]) == Ok(c)
    requires AccumulatorOf(parts[5]) == Ok(acc)
    ensures MatmulOfParts(rest, parts) == Ok(Matmul(core, unit, a, b, c, acc))
  {
  }

  lemma SixFields(fs: seq<string>, f0: string, f1: string, f2: string, f3: string, f4: string, f5: string)
    requires fs == [f0, f1, f2, f3, f4, f5]
    ensures |fs| == 6 && fs[0] == f0 && fs[1] == f1 && fs[2] == f2 && fs[3] == f3 && fs[4] == f4 && fs[5] == f5
  {
  }

  lemma PrintMatmul(core: int, unit: int, a: SliceOperand, b: SliceOperand, c: SliceOperand, acc: bool)
    ensures PrintOp(Matmul(core, unit, a, b, c, acc))
         == MatmulPrefix + " " + (IntToString(core) + ", " + IntToString(unit) + ", " + PrintSlice(a) + ", "
            + PrintSlice(b) + ", " + PrintSlice(c) + "," + (" accumulator=" + (if acc then "True" else "False")))
  {
    MatmulLineRegroup(IntToString(core), IntToString(unit), PrintSlice(a), PrintSlice(b), PrintSlice(c),
                      if acc then "True" else "False");
  }

  /** The printed operands of a `matmul` are clean and split into their six fields. */
  lemma MatmulOperandsSplit(core: int, unit: int, a: SliceOperand, b: SliceOperand, c: SliceOperand, acc: bool)
    ensures var w := " accumulator=" + (if acc then "True" else "False");
      var i1, i2 := IntToString(core), IntToString(unit);
      var sa, sb, sc := PrintSlice(a), PrintSlice(b), PrintSlice(c);
      var operands := i1 + ", " + i2 + ", " + sa + ", " + sb + ", " + sc + "," + w;
      Clean(operands) && TopLevelFields(operands, 0, [], []) == [i1, " " + i2, " " + sa, " " + sb, " " + sc, w]
  {
    var i1, i2 := IntToString(core), IntToString(unit);
    var sa, sb, sc := PrintSlice(a), PrintSlice(b), PrintSlice(c);
    var w := " accumulator=" + (if acc then "True" else "False");
    var operands := i1 + ", " + i2 + ", " + sa + ", " + sb + ", " + sc + "," + w;
    PrintSliceText(a);
    PrintSliceText(b);
    PrintSliceText(c);
    NumberPlain(core);
    NumberPlain(unit);
    AccumulatorPlain(acc);
    MatmulSplit(i1, i2, sa, sb, sc, w);
    AccumulatorEnds(acc);
    OperandsClean(i1, i2, sa, sb, sc, w);
  }

  /** The printed flag field ends in a letter. */
  lemma AccumulatorEnds(acc: bool)
    ensures var w := " accumulator=" + (if acc then "True" else "False");
      w != [] && w[|w| - 1] == 'e'
  {
  }

  /** Matmul operands from a clean first field to a last one that ends in a letter are clean. */
  lemma OperandsClean(i1: string, i2: string, sa: string, sb: string, sc: string, w: string)
    requires Clean(i1) && w != [] && !IsTrimSpace(w[|w| - 1])
    ensures Clean(i1 + ", " + i2 + ", " + sa + ", " + sb + ", " + sc + "," + w)
  {
    var s := i1 + ", " + i2 + ", " + sa + ", " + sb + ", " + sc + "," + w;
    assert s[0] == i1[0] && s[|s| - 1] == w[|w| - 1];
  }

  /** `parseMatmul` reads back a printed `matmul`. */
  lemma MatmulRoundTrip(core: int, unit: int, a: SliceOperand, b: SliceOperand, c: SliceOperand, acc: bool)
    requires Int32(core) && Int32(unit) && SliceFits(a) && SliceFits(b) && SliceFits(c)
    ensures ParsedLine(PrintOp(Matmul(core, unit, a, b, c, acc))) == Ok(Matmul(core, unit, a, b, c, acc))
  {
    var i1, i2 := IntToString(core), IntToString(unit);
    var sa, sb, sc := PrintSlice(a), PrintSlice(b), PrintSlice(c);
    var w := " accumulator=" + (if acc then "True" else "False");
    var operands := i1 + ", " + i2 + ", " + sa + ", " + sb + ", " + sc + "," + w;
    MatmulOperandsSplit(core, unit, a, b, c, acc);
    var fs := TopLevelFields(operands, 0, [], []);
    SixFields(fs, i1, " " + i2, " " + sa, " " + sb, " " + sc, w);
    SliceRoundTrip(a);
    SliceRoundTrip(b);
    SliceRoundTrip(c);
    ParseIntToString(core);
    ParseIntToString(unit);
    AccumulatorWord(acc);
    MatmulFields(operands, fs, core, unit, a, b, c, acc);
    calc {
      ParsedLine(PrintOp(Matmul(core, unit, a, b, c, acc)));
      { PrintMatmul(core, unit, a, b, c, acc); }
      ParsedLine(MatmulPrefix + " " + operands);
      { DispatchMatmul(operands); }
      MatmulOfParts(operands, fs);
    }
  }

  // ---------------------------------------------------------------------
  // Whole instructions
  // ---------------------------------------------------------------------

  /** The dispatch of `parseFile` reads back every printed copy and matmul. */
  lemma OpRoundTrip(op: Op)
    requires !op.IsMarker() && OpFits(op)
    ensures ParsedLine(PrintOp(op)) == Ok(op)
  {
    match op
    case GlobalToLocal(core, src, dst) => GlobalToLocalRoundTrip(core, src, dst);
    case LocalToGlobal(core, src, dst) => LocalToGlobalRoundTrip(core, src, dst);
    case Matmul(core, unit, a, b, c, acc) => MatmulRoundTrip(core, unit, a, b, c, acc);
  }

  /** The two markers the generator prints are unknown to the parser. */
  lemma MarkersRejected(op: Op)
    requires op.IsMarker()
    ensures ParsedLine(PrintOp(op)) == Err(UnknownInstruction(PrintOp(op)))
  {
    var s := PrintOp(op);
    assert s[0] != 'm' && |s| < |GlobalToLocalPrefix| && |s| < |LocalToGlobalPrefix|;
    assert !StartsWith(s, MatmulPrefix) by {
      assert s[..|MatmulPrefix|][0] == s[0];
    }
  }

  lemma NumberNoNewline(n: int)
    ensures '\n' !in IntToString(n)
  {
    IntToStringShape(n);
    NumberTextAvoids(IntToString(n));
  }

  lemma SliceNoNewline(s: SliceOperand)
    ensures '\n' !in PrintSlice(s)
  {
    SliceInnerShape(s);
  }

  /** The shape of a printed copy: an opcode, then three operands. */
  lemma CopyLine(head: string, a: string, b: string, c: string)
    requires head != [] && !IsTrimSpace(head[0]) && c != [] && !IsTrimSpace(c[|c| - 1])
    requires '\n' !in head && '\n' !in a && '\n' !in b && '\n' !in c
    ensures Clean(head + a + ", " + b + ", " + c) && '\n' !in head + a + ", " + b + ", " + c
  {
    var s := head + a + ", " + b + ", " + c;
    assert s[0] == head[0] && s[|s| - 1] == c[|c| - 1];
  }

  /** The shape of a printed matmul: the opcode, five operands and the flag. */
  lemma MatmulLine(i1: string, i2: string, sa: string, sb: string, sc: string, w: string)
    requires w == "True" || w == "False"
    requires '\n' !in i1 && '\n' !in i2 && '\n' !in sa && '\n' !in sb && '\n' !in sc
    ensures var s := "matmul " + i1 + ", " + i2 + ", " + sa + ", " + sb + ", " + sc + ", accumulator=" + w;
      Clean(s) && '\n' !in s
  {
    var s := "matmul " + i1 + ", " + i2 + ", " + sa + ", " + sb + ", " + sc + ", accumulator=" + w;
    assert s[0] == 'm' && s[|s| - 1] == w[|w| - 1] == 'e';
  }

  /** The opcodes of the two copies, with the blank after them, hold no newline. */
  lemma CopyOpcodesPlain()
    ensures '\n' !in "cp_global_to_local " && '\n' !in "cp_local_to_global "
  {
    var g, l := "cp_global_to_local ", "cp_local_to_global ";
    assert forall i | 0 <= i < |g| :: g[i] != '\n';
    assert forall i | 0 <= i < |l| :: l[i] != '\n';
  }

  lemma GlobalToLocalLine(core: int, src: SliceOperand, dst: SliceOperand)
    ensures Clean(PrintOp(GlobalToLocal(core, src, dst))) && '\n' !in PrintOp(GlobalToLocal(core, src, dst))
  {
    NumberNoNewline(core);
    SliceNoNewline(src);
    SliceNoNewline(dst);
    PrintSliceClean(dst);
    CopyOpcodesPlain();
    CopyLine("cp_global_to_local ", PrintSlice(src), IntToString(core), PrintSlice(dst));
  }

  lemma LocalToGlobalLine(core: int, src: SliceOperand, dst: SliceOperand)
    ensures Clean(PrintOp(LocalToGlobal(core, src, dst))) && '\n' !in PrintOp(LocalToGlobal(core, src, dst))
  {
    NumberNoNewline(core);
    SliceNoNewline(src);
    SliceNoNewline(dst);
    PrintSliceClean(dst);
    CopyOpcodesPlain();
    CopyLine("cp_local_to_global ", IntToString(core), PrintSlice(src), PrintSlice(dst));
  }

  lemma MatmulOpLine(core: int, unit: int, a: SliceOperand, b: SliceOperand, c: SliceOperand, acc: bool)
    ensures Clean(PrintOp(Matmul(core, unit, a, b, c, acc))) && '\n' !in PrintOp(Matmul(core, unit, a, b, c, acc))
  {
    NumberNoNewline(core);
    NumberNoNewline(unit);
    SliceNoNewline(a);
    SliceNoNewline(b);
    SliceNoNewline(c);
    MatmulLine(IntToString(core), IntToString(unit), PrintSlice(a), PrintSlice(b), PrintSlice(c),
               if acc then "True" else "False");
  }

  /** Every printed instruction is one non-empty line with no blank at either end. */
  lemma PrintOpLine(op: Op)
    ensures Clean(PrintOp(op)) && '\n' !in PrintOp(op)
  {
    match op
    case GlobalToLocal(core, src, dst) => GlobalToLocalLine(core, src, dst);
    case LocalToGlobal(core, src, dst) => LocalToGlobalLine(core, src, dst);
    case Matmul(core, unit, a, b, c, acc) => MatmulOpLine(core, unit, a, b, c, acc);
    case StartParallel =>
    case EndParallel =>
  }

  /** The line parser with the two markers added: what the generator's output
      needs from `parseFile`. */
  function ParsedLineWithMarkers(s: string): (r: Result<Op, ParseError>)
  {
    if s == PrintOp(StartParallel) then Ok(StartParallel)
    else if s == PrintOp(EndParallel) then Ok(EndParallel)
    else ParsedLine(s)
  }

  /** The corrected line parser reads back every printed instruction, markers included. */
  lemma OpRoundTripWithMarkers(op: Op)
    requires OpFits(op)
    ensures ParsedLineWithMarkers(PrintOp(op)) == Ok(op)
  {
    if !op.IsMarker() {
      NotMarkerText(op);
      OpRoundTrip(op);
    }
  }

  /** A printed copy or matmul is neither marker's text. */
  lemma NotMarkerText(op: Op)
    requires !op.IsMarker()
    ensures PrintOp(op) != PrintOp(StartParallel) && PrintOp(op) != PrintOp(EndParallel)
  {
    var s := PrintOp(op);
    match op
    case GlobalToLocal(core, src, dst) =>
      PrintGlobalToLocal(core, src, dst);
      assert s[0] == 'c';
    case LocalToGlobal(core, src, dst) =>
      PrintLocalToGlobal(core, src, dst);
      assert s[0] == 'c';
    case Matmul(core, unit, a, b, c, acc) =>
      PrintMatmul(core, unit, a, b, c, acc);
      assert s[0] == 'm';
  }

  // ---------------------------------------------------------------------
  // Whole programs
  // ---------------------------------------------------------------------

  lemma {:induction false} GetLinesText(l: string, rest: string, cur: string)
    requires '\n' !in l
    ensures GetLines(l + rest, cur) == GetLines(rest, cur + l)
    decreases |l|
  {
    if l == [] {
      assert l + rest == rest && cur + l == cur;
    } else {
      assert (l + rest)[0] == l[0];
      assert (l + rest)[1..] == l[1..] + rest;
      GetLinesText(l[1..], rest, cur + [l[0]]);
      assert cur + [l[0]] + l[1..] == cur + l;
    }
  }

  /** `getline` over joined lines gives back the lines, after what preceded
      the first newline. */
  lemma {:induction false} GetLinesJoined(ls: seq<string>, cur: string)
    requires ls != []
    requires forall i :: 0 <= i < |ls| ==> ls[i] != [] && '\n' !in ls[i]
    ensures GetLines(Joined(ls), cur) == [cur] + ls
    decreases |ls|
  {
    var head, tail := ls[0], ls[1..];
    assert [head] + tail == ls;
    JoinedConcat([head], tail);
    assert [head][..0] == [];
    assert Joined([head]) == "\n" + head;
    var text := Joined(ls);
    assert text == "\n" + (head + Joined(tail));
    assert text[0] == '\n' && text[1..] == head + Joined(tail);
    GetLinesText(head, Joined(tail), []);
    assert [] + head == head;
    if tail == [] {
      assert head + Joined(tail) == head;
      assert GetLines(Joined(tail), head) == [head];
    } else {
      GetLinesJoined(tail, head);
    }
  }

  /** The generator's text splits, line by line, into a blank line and then
      one line per instruction. */
  lemma ProgramLines(ops: seq<Op>)
    ensures GetLines(PrintProgram(ops), []) == if ops == [] then [] else [""] + Lines(ops)
  {
    if ops != [] {
      forall i | 0 <= i < |Lines(ops)|
        ensures Lines(ops)[i] != [] && '\n' !in Lines(ops)[i]
      {
        PrintOpLine(ops[i]);
      }
      GetLinesJoined(Lines(ops), []);
    }
  }

  lemma BlankLineSkipped(lines: seq<string>)
    ensures ParsedProgram([""] + lines) == ParsedProgram(lines)
  {
    ParsedProgramStep([""] + lines);
    assert ([""] + lines)[1..] == lines;
  }

  /** `parseFile` over clean lines that each parse: their instructions, in order. */
  lemma {:induction false} ParsedAll(lines: seq<string>, ops: seq<Op>)
    requires |lines| == |ops|
    requires forall i :: 0 <= i < |lines| ==> Clean(lines[i]) && ParsedLine(lines[i]) == Ok(ops[i])
    ensures ParsedProgram(lines) == Ok(ops)
    decreases |lines|
  {
    if lines != [] {
      TrimClean(lines[0]);
      ParsedAll(lines[1..], ops[1..]);
      assert [ops[0]] + ops[1..] == ops;
    }
  }

  /** `parseFile` over clean lines stops at the first line that does not parse. */
  lemma ParsedFailsAt(lines: seq<string>, j: nat)
    requires j < |lines|
    requires forall i :: 0 <= i <= j ==> Clean(lines[i])
    requires forall i :: 0 <= i < j ==> ParsedLine(lines[i]).Ok?
    requires ParsedLine(lines[j]).Err?
    ensures ParsedProgram(lines) == Err(ParsedLine(lines[j]).error)
  {
    FailsFrom(lines, 0, j);
    assert lines[0..] == lines;
  }

  /** The lines from `k` on fail with the error of line `j`. */
  lemma {:induction false} FailsFrom(lines: seq<string>, k: nat, j: nat)
    requires k <= j < |lines|
    requires forall i :: 0 <= i <= j ==> Clean(lines[i])
    requires forall i :: 0 <= i < j ==> ParsedLine(lines[i]).Ok?
    requires ParsedLine(lines[j]).Err?
    ensures ParsedProgram(lines[k..]) == Err(ParsedLine(lines[j]).error)
    decreases j - k
  {
    var rest := lines[k..];
    assert rest[0] == lines[k];
    if k == j {
      ParsedFailsFirst(rest);
    } else {
      FailsFrom(lines, k + 1, j);
      assert rest[1..] == lines[k + 1..];
      ParsedOkFirst(rest);
    }
  }

  lemma ParsedOkFirst(lines: seq<string>)
    requires lines != [] && Clean(lines[0]) && ParsedLine(lines[0]).Ok?
    ensures ParsedProgram(lines) == Prepend([ParsedLine(lines[0]).value], ParsedProgram(lines[1..]))
  {
    TrimClean(lines[0]);
    ParsedProgramStep(lines);
  }

  /** The position of the first parallel marker. */
  function FirstMarker(ops: seq<Op>): (r: nat)
    requires !MarkerFree(ops)
    ensures r < |ops| && ops[r].IsMarker()
    ensures forall i :: 0 <= i < r ==> !ops[i].IsMarker()
  {
    if ops[0].IsMarker() then 0
    else
      assert !MarkerFree(ops[1..]) by {
        var i :| 0 <= i < |ops| && ops[i].IsMarker();
        assert ops[1..][i - 1] == ops[i];
      }
      1 + FirstMarker(ops[1..])
  }

  /** As written, `parseFile` reads back a printed program with no parallel markers. */
  lemma MarkerFreeLinesParsed(ops: seq<Op>)
    requires forall i :: 0 <= i < |ops| ==> OpFits(ops[i])
    requires MarkerFree(ops)
    ensures ParsedProgram(Lines(ops)) == Ok(ops)
  {
    forall i | 0 <= i < |ops|
      ensures Clean(Lines(ops)[i]) && ParsedLine(Lines(ops)[i]) == Ok(ops[i])
    {
      PrintOpLine(ops[i]);
      OpRoundTrip(ops[i]);
    }
    ParsedAll(Lines(ops), ops);
  }

  /** As written, `parseFile` fails on a printed program with a parallel
      marker, at the first marker. */
  lemma MarkedLinesRejected(ops: seq<Op>)
    requires forall i :: 0 <= i < |ops| ==> OpFits(ops[i])
    requires !MarkerFree(ops)
    ensures ParsedProgram(Lines(ops)) == Err(UnknownInstruction(PrintOp(ops[FirstMarker(ops)])))
  {
    var j := FirstMarker(ops);
    forall i | 0 <= i <= j
      ensures Clean(Lines(ops)[i])
      ensures i < j ==> ParsedLine(Lines(ops)[i]) == Ok(ops[i])
    {
      PrintOpLine(ops[i]);
      if i < j {
        OpRoundTrip(ops[i]);
      }
    }
    MarkersRejected(ops[j]);
    ParsedFailsAt(Lines(ops), j);
  }

  /** As written, `parseFile` on the generator's text: it reads back exactly
      the marker-free programs. */
  lemma TextAsWritten(ops: seq<Op>)
    requires forall i :: 0 <= i < |ops| ==> OpFits(ops[i])
    ensures MarkerFree(ops) ==> ParsedProgram(GetLines(PrintProgram(ops), [])) == Ok(ops)
    ensures !MarkerFree(ops) ==>
      ParsedProgram(GetLines(PrintProgram(ops), [])) == Err(UnknownInstruction(PrintOp(ops[FirstMarker(ops)])))
  {
    ProgramLines(ops);
    if ops != [] {
      BlankLineSkipped(Lines(ops));
    }
    if MarkerFree(ops) {
      MarkerFreeLinesParsed(ops);
    } else {
      MarkedLinesRejected(ops);
    }
  }

  /** `parseFile` with the markers added to its dispatch. */
  function ParsedProgramWithMarkers(lines: seq<string>): Result<seq<Op>, ParseError>
  {
    if lines == [] then Ok([])
    else
      var s := Trim(lines[0]);
      if s == [] then ParsedProgramWithMarkers(lines[1..])
      else
        var op :- ParsedLineWithMarkers(s);
        var rest :- ParsedProgramWithMarkers(lines[1..]);
        Ok([op] + rest)
  }

  lemma {:induction false} ParsedAllWithMarkers(lines: seq<string>, ops: seq<Op>)
    requires |lines| == |ops|
    requires forall i :: 0 <= i < |lines| ==> Clean(lines[i]) && ParsedLineWithMarkers(lines[i]) == Ok(ops[i])
    ensures ParsedProgramWithMarkers(lines) == Ok(ops)
    decreases |lines|
  {
    if lines != [] {
      TrimClean(lines[0]);
      ParsedAllWithMarkers(lines[1..], ops[1..]);
      assert [ops[0]] + ops[1..] == ops;
    }
  }

  lemma ParsedLinesWithMarkers(ops: seq<Op>)
    requires forall i :: 0 <= i < |ops| ==> OpFits(ops[i])
    ensures ParsedProgramWithMarkers(Lines(ops)) == Ok(ops)
  {
    forall i | 0 <= i < |ops|
      ensures Clean(Lines(ops)[i]) && ParsedLineWithMarkers(Lines(ops)[i]) == Ok(ops[i])
    {
      PrintOpLine(ops[i]);
      OpRoundTripWithMarkers(ops[i]);
    }
    ParsedAllWithMarkers(Lines(ops), ops);
  }

  /** With the markers added, `parseFile` reads back every printed program. */
  lemma TextRoundTrip(ops: seq<Op>)
    requires forall i :: 0 <= i < |ops| ==> OpFits(ops[i])
    ensures ParsedProgramWithMarkers(GetLines(PrintProgram(ops), [])) == Ok(ops)
  {
    ProgramLines(ops);
    if ops != [] {
      var lines := [""] + Lines(ops);
      assert lines[0] == "" && lines[1..] == Lines(ops);
      assert Trim("") == [];
    }
    ParsedLinesWithMarkers(ops);
  }

  // ---------------------------------------------------------------------
  // The generator's programs are int-sized
  // ---------------------------------------------------------------------

  /** The target figures are C++ `int`s and nothing the generator divides by is zero. */
  predicate IntTarget(t: GenTarget) {
    Usable(t) && Int32(t.numCores) && Int32(t.localMemPerCore) && Int32(t.mmUnitsPerCore)
  }

  lemma KSliceFits(t: GenTarget, K: int, k: int)
    requires Usable(t) && Int32(K) && 0 <= k < KTiles(t, K)
    ensures DimFits(KSlice(t, k))
  {
    var q := K / t.tileK;
    assert k + 1 <= q;
    assert (k + 1) * t.tileK <= q * t.tileK;
    assert q * t.tileK <= K;
    assert k * t.tileK + t.tileK == (k + 1) * t.tileK;
  }

  /** The participating cores' column bands end within the `N` columns. */
  lemma BandsWithinColumns(t: GenTarget, N: int)
    requires Usable(t) && N > 0 && Participating(t, N) > 0
    ensures ColTilesPerCore(t, N) >= 1
    ensures Participating(t, N) * (ColTilesPerCore(t, N) * t.tileN) <= N
  {
    var nct, c, p := NumColTiles(t, N), ColTilesPerCore(t, N), Participating(t, N);
    assert nct * t.tileN <= N;
    if nct < t.numCores {
      assert p == nct && c == 1;
    } else {
      assert p == t.numCores;
      assert p * c <= nct;
      assert (p * c) * t.tileN <= nct * t.tileN;
    }
  }

  lemma BandArithmetic(i: int, c: int, tN: int, p: int, N: int)
    requires 0 <= i < p && c >= 1 && tN > 0 && p * (c * tN) <= N
    ensures 0 <= i * c * tN && i * c * tN + c * tN <= N && 0 < c * tN <= N
  {
    var w := c * tN;
    MulAtLeastOne(c, tN);
    MulAssociates(i, c, tN);
    NextMultiple(i, p, w);
    MulAtLeastOne(p, w);
  }

  lemma BandFits(t: GenTarget, N: int, i: int)
    requires Usable(t) && Int32(N) && N > 0 && 0 <= i < Participating(t, N)
    ensures DimFits(ColumnBand(i, ColTilesPerCore(t, N), t.tileN))
    ensures DimFits(Dim(0, ColTilesPerCore(t, N) * t.tileN, 1))
  {
    BandsWithinColumns(t, N);
    BandArithmetic(i, ColTilesPerCore(t, N), t.tileN, Participating(t, N), N);
  }

  lemma OffsetsFit(t: GenTarget, N: int)
    requires IntTarget(t) && N > 0 && FitsLocalMemory(t, N)
    ensures Int32(WeightOffset(t)) && Int32(OutputOffset(t, N))
  {
    PlanLayout(t, N, 0);
  }

  lemma {:induction false} MatmulBlockFits(t: GenTarget, N: int, k: int, n: nat)
    requires IntTarget(t) && Int32(N) && N > 0 && FitsLocalMemory(t, N) && n <= Participating(t, N)
    ensures forall op :: op in MatmulBlock(t, N, k, n) ==> OpFits(op)
  {
    if n > 0 {
      MatmulBlockFits(t, N, k, n - 1);
      OffsetsFit(t, N);
      PlanLayout(t, N, 0);
    }
  }

  lemma KStepFits(t: GenTarget, N: int, K: int, k: int)
    requires IntTarget(t) && Int32(N) && N > 0 && Int32(K) && FitsLocalMemory(t, N)
    requires 0 <= k < KTiles(t, K)
    ensures forall op :: op in KStep(t, N, k) ==> OpFits(op)
  {
    var p := Participating(t, N);
    KSliceFits(t, K, k);
    OffsetsFit(t, N);
    PlanLayout(t, N, K);
    forall i | 0 <= i < p
      ensures OpFits(ActivationBlock(t, k, p)[i]) && OpFits(WeightBlock(t, N, k, p)[i])
    {
      BandFits(t, N, i);
    }
    MatmulBlockFits(t, N, k, p);
  }

  lemma {:induction false} KStepsFits(t: GenTarget, N: int, K: int, n: nat)
    requires IntTarget(t) && Int32(N) && N > 0 && Int32(K) && FitsLocalMemory(t, N)
    requires n <= KTiles(t, K)
    ensures forall op :: op in KSteps(t, N, n) ==> OpFits(op)
  {
    if n > 0 {
      KStepsFits(t, N, K, n - 1);
      KStepFits(t, N, K, n - 1);
    }
  }

  /** The capacity product of the check is not always a C++ `int`: for the
      4-core target and N = 2^26 it is 2^31, one past `INT_MAX`. The model
      keeps it whole and rejects the size; a 32-bit build overflows there. */
  lemma CapacityProductOverflows()
    ensures ColTilesPerCore(EpuTarget, 0x400_0000) == 0x8_0000
    ensures ColTilesPerCore(EpuTarget, 0x400_0000) * BytesPerWeightTile(EpuTarget) == 0x8000_0000
    ensures !Int32(ColTilesPerCore(EpuTarget, 0x400_0000) * BytesPerWeightTile(EpuTarget))
    ensures !FitsLocalMemory(EpuTarget, 0x400_0000)
  {
    assert NumColTiles(EpuTarget, 0x400_0000) == 0x20_0000;
  }

  /** Every instruction of a program the generator prints for C++ `int`
      sizes has C++ `int` fields, so the parser can read it back. */
  lemma PlanFits(t: GenTarget, N: int, K: int)
    requires IntTarget(t) && Int32(N) && N > 0 && Int32(K) && FitsLocalMemory(t, N)
    ensures forall i :: 0 <= i < |Plan(t, N, K)| ==> OpFits(Plan(t, N, K)[i])
  {
    KStepsFits(t, N, K, KTiles(t, K));
    OffsetsFit(t, N);
    PlanLayout(t, N, K);
    var p := Participating(t, N);
    forall i | 0 <= i < p
      ensures OpFits(OutputBlock(t, N, p)[i])
    {
      BandFits(t, N, i);
    }
    var plan := Plan(t, N, K);
    forall i | 0 <= i < |plan|
      ensures OpFits(plan[i])
    {
      assert plan[i] in plan;
      if i < |KSteps(t, N, KTiles(t, K))| {
        assert plan[i] in KSteps(t, N, KTiles(t, K));
      }
    }
  }

  // ---------------------------------------------------------------------
  // Generated programs through the parser and the simulator
  // ---------------------------------------------------------------------

  lemma {:induction false} BracketedStartsWithMarker(blocks: seq<seq<Op>>)
    requires blocks != []
    ensures |Bracketed(blocks)| > 0 && Bracketed(blocks)[0] == StartParallel
    decreases |blocks|
  {
    var init := blocks[..|blocks| - 1];
    if init != [] {
      BracketedStartsWithMarker(init);
    }
  }

  /** Every program the generator prints opens with `start_parallel`. */
  lemma PlanStartsWithMarker(t: GenTarget, N: int, K: int)
    requires Usable(t)
    ensures |Plan(t, N, K)| > 0 && Plan(t, N, K)[0] == StartParallel
  {
    PlanIsParallelBlocks(t, N, K);
    BracketedStartsWithMarker(PlanBlocks(t, N, K));
  }

  /** As written, `parseFile` rejects every program the generator prints, at
      its first instruction line. */
  lemma GeneratedTextRejected(t: GenTarget, N: int, K: int)
    requires Usable(t)
    ensures ParsedProgram(GetLines(PrintProgram(Plan(t, N, K)), [])) == Err(UnknownInstruction("start_parallel"))
  {
    var plan := Plan(t, N, K);
    PlanStartsWithMarker(t, N, K);
    ProgramLines(plan);
    BlankLineSkipped(Lines(plan));
    StartMarkerRejected(plan);
    assert PrintOp(StartParallel) == "start_parallel";
  }

  /** `parseFile` stops at a leading `start_parallel` line. */
  lemma StartMarkerRejected(ops: seq<Op>)
    requires |ops| > 0 && ops[0] == StartParallel
    ensures ParsedProgram(Lines(ops)) == Err(UnknownInstruction(PrintOp(StartParallel)))
  {
    var lines := Lines(ops);
    assert lines[0] == PrintOp(ops[0]);
    PrintOpLine(ops[0]);
    MarkersRejected(ops[0]);
    ParsedFailsFirst(lines);
  }

  lemma ParsedFailsFirst(lines: seq<string>)
    requires lines != [] && Clean(lines[0]) && ParsedLine(lines[0]).Err?
    ensures ParsedProgram(lines) == Err(ParsedLine(lines[0]).error)
  {
    TrimClean(lines[0]);
    ParsedProgramStep(lines);
  }

  /** With the markers added, `parseFile` reads back exactly the program the
      generator printed, for every configuration it accepts with `int` sizes. */
  lemma GeneratedTextReadBack(t: GenTarget, N: int, K: int)
    requires IntTarget(t) && Int32(N) && N > 0 && Int32(K) && FitsLocalMemory(t, N)
    ensures ParsedProgramWithMarkers(GetLines(PrintProgram(Plan(t, N, K)), [])) == Ok(Plan(t, N, K))
  {
    PlanFits(t, N, K);
    TextRoundTrip(Plan(t, N, K));
  }

  /** As written, `simulateInstructions` runs none of a generated program:
      every instruction is left in the batch, so the memory is unchanged. */
  lemma GeneratedProgramInert(t: GenTarget, N: int, K: int, mem: seq<int>, env: Env)
    requires Usable(t)
    ensures DispatchAll(Idle, Plan(t, N, K)) == Dispatch([], Concat(PlanBlocks(t, N, K)), false)
    ensures RunAll(mem, env, DispatchAll(Idle, Plan(t, N, K)).executed) == mem
  {
    PlanIsParallelBlocks(t, N, K);
    BracketedNeverRuns(PlanBlocks(t, N, K));
  }

  /** With the batch dispatched at `end_parallel`, a generated program runs
      every instruction, block after block, and leaves nothing pending. */
  lemma GeneratedProgramRuns(t: GenTarget, N: int, K: int)
    requires Usable(t)
    ensures FlushAll(Idle, Plan(t, N, K)) == Dispatch(Concat(PlanBlocks(t, N, K)), [], false)
    ensures Concat(PlanBlocks(t, N, K)) == StripMarkers(Plan(t, N, K))
  {
    PlanIsParallelBlocks(t, N, K);
    FlushedBlocksRunInOrder(PlanBlocks(t, N, K));
    FlushedRunsStripped(Plan(t, N, K));
    assert Concat(PlanBlocks(t, N, K)) + [] == Concat(PlanBlocks(t, N, K));
  }
}
