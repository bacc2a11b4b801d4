/** What parsing /proc/<pid>/maps promises: it goes line by line, and it undoes printing in the
    format of proc(5) (src/symbols/symbolizer.cpp:166-195). */
module MapsRoundTrip {
  import opened Results
  import opened Words
  import opened Sequences
  import opened AddressResolution
  import opened ProcMaps

  // ----- line by line

  predicate EndsLine(text: string) {
    text == "" || text[|text| - 1] == '\n'
  }

  lemma {:induction false} LineLengthIs(text: string, n: nat)
    requires n < |text| && text[n] == '\n' && '\n' !in text[..n]
    ensures LineLength(text) == n
  {
    if n > 0 {
      assert text[0] == text[..n][0];
      assert text[1..][..n - 1] == text[..n][1..];
      LineLengthIs(text[1..], n - 1);
    }
  }

  lemma EndsWithin(text: string)
    requires EndsLine(text) && text != ""
    ensures LineLength(text) < |text|
  {
    assert '\n' in text && text[..|text|] == text;
  }

  lemma FirstLine(text: string, n: nat)
    requires n < |text| && text[n] == '\n' && '\n' !in text[..n]
    ensures LinesOf(text) == [text[..n]] + LinesOf(text[n + 1..])
  {
    hide LineLength;
    LineLengthIs(text, n);
  }

  lemma FirstLineOfConcat(a: string, b: string) returns (n: nat)
    requires EndsLine(a) && a != ""
    ensures n < |a| && EndsLine(a[n + 1..])
    ensures LinesOf(a) == [a[..n]] + LinesOf(a[n + 1..])
    ensures LinesOf(a + b) == [a[..n]] + LinesOf(a[n + 1..] + b)
  {
    n := LineLength(a);
    EndsWithin(a);
    hide LinesOf, LineLength;
    ConcatParts(a, b, n);
    FirstLine(a, n);
    FirstLine(a + b, n);
  }

  lemma ConcatParts(a: string, b: string, n: nat)
    requires n < |a| && EndsLine(a)
    ensures EndsLine(a[n + 1..])
    ensures (a + b)[..n] == a[..n] && (a + b)[n] == a[n] && (a + b)[n + 1..] == a[n + 1..] + b
  {
  }

  lemma {:induction false} LinesOfConcat(a: string, b: string)
    requires EndsLine(a)
    ensures LinesOf(a + b) == LinesOf(a) + LinesOf(b)
    decreases |a|
  {
    if a == "" {
      assert a + b == b && [] + LinesOf(b) == LinesOf(b);
    } else {
      hide LinesOf;
      var n := FirstLineOfConcat(a, b);
      LinesOfConcat(a[n + 1..], b);
      Assoc([a[..n]], LinesOf(a[n + 1..]), LinesOf(b));
    }
  }

  /** Both lists, unless the first error stops the parse. */
  function Both(x: Result<seq<Mapping>, MapsError>, y: Result<seq<Mapping>, MapsError>): Result<seq<Mapping>, MapsError> {
    if x.Err? then x else if y.Err? then y else Ok(x.value + y.value)
  }

  lemma BothEmpty(x: Result<seq<Mapping>, MapsError>)
    ensures Both(x, Ok([])) == x
  {
    assert x.Ok? ==> x.value + [] == x.value;
  }

  lemma BothExtended(x: Result<seq<Mapping>, MapsError>, y: Result<seq<Mapping>, MapsError>, line: LineResult)
    ensures Both(x, Extend(y, line)) == Extend(Both(x, y), line)
  {
    if x.Ok? && y.Ok? && line.Parsed? {
      assert x.value + (y.value + [line.mapping]) == (x.value + y.value) + [line.mapping];
    }
  }

  lemma {:induction false} ParseLinesConcat(s: seq<string>, t: seq<string>)
    ensures ParseLines(s + t) == Both(ParseLines(s), ParseLines(t))
  {
    hide ParseLine, Both, Extend;
    if t == [] {
      assert s + t == s;
      BothEmpty(ParseLines(s));
    } else {
      var front := t[..|t| - 1];
      assert (s + t)[..|s + t| - 1] == s + front;
      ParseLinesConcat(s, front);
      BothExtended(ParseLines(s), ParseLines(front), ParseLine(t[|t| - 1]));
    }
  }

  /** Parsing a text of whole lines followed by another is parsing both. */
  lemma ParseDistributes(a: string, b: string)
    requires EndsLine(a)
    ensures ParseLines(LinesOf(a + b)) == Both(ParseLines(LinesOf(a)), ParseLines(LinesOf(b)))
  {
    LinesOfConcat(a, b);
    ParseLinesConcat(LinesOf(a), LinesOf(b));
  }

  // ----- lines that count for nothing

  /** The words of a line, separated by any amount of white space. */
  function WordsOf(s: string): seq<string>
    decreases |s|
  {
    var t := SkipSpaces(s);
    if t == "" then [] else [t[..TokenLength(t)]] + WordsOf(t[TokenLength(t)..])
  }

  /** A sign or none, then the digits of a number below 2^64, then anything. */
  predicate LeadsWithNumber(word: string) {
    var digits := SkipSign(word)[..DigitsLength(SkipSign(word), false)];
    digits != "" && DecimalValue(digits) < TWO64
  }

  lemma ReadsFirstWord(s: string)
    ensures ReadToken(s).Some? <==> WordsOf(s) != []
    ensures ReadToken(s).Some? ==>
      ReadToken(s).value.token == WordsOf(s)[0] && WordsOf(ReadToken(s).value.rest) == WordsOf(s)[1..]
  {
  }

  lemma {:induction false} DigitsWithinToken(t: string)
    ensures DigitsLength(t, false) == DigitsLength(t[..TokenLength(t)], false) <= TokenLength(t)
  {
    if t != "" && IsDecimal(t[0]) {
      DigitsWithinToken(t[1..]);
      assert t[..TokenLength(t)][1..] == t[1..][..TokenLength(t[1..])];
    }
  }

  lemma SignWithinToken(t: string)
    requires t != "" && !IsSpace(t[0])
    ensures var rest, word := SkipSign(t), t[..TokenLength(t)];
      SkipSign(word) == rest[..TokenLength(rest)]
  {
    if t[0] == '+' || t[0] == '-' {
      assert t[..TokenLength(t)][1..] == t[1..][..TokenLength(t[1..])];
    }
  }

  lemma NumberOfWord(s: string)
    ensures SkipNumber(s).Some? <==> WordsOf(s) != [] && LeadsWithNumber(WordsOf(s)[0])
  {
    var t := SkipSpaces(s);
    if t != "" {
      var rest := SkipSign(t);
      SignWithinToken(t);
      DigitsWithinToken(rest);
      var n := DigitsLength(rest, false);
      assert rest[..TokenLength(rest)][..n] == rest[..n];
    }
  }

  lemma FieldsAreWords(line: string)
    ensures ReadFields(line).Some? <==> |WordsOf(line)| >= 5 && LeadsWithNumber(WordsOf(line)[4])
    ensures ReadFields(line).Some? ==> ReadFields(line).value.range == WordsOf(line)[0]
  {
    hide ReadToken, SkipNumber, WordsOf, LeadsWithNumber;
    ReadsFirstWord(line);
    if ReadToken(line).Some? {
      var after := ReadToken(line).value.rest;
      ReadsFirstWord(after);
      if ReadToken(after).Some? {
        var after2 := ReadToken(after).value.rest;
        ReadsFirstWord(after2);
        if ReadToken(after2).Some? {
          var after3 := ReadToken(after2).value.rest;
          ReadsFirstWord(after3);
          if ReadToken(after3).Some? {
            NumberOfWord(ReadToken(after3).value.rest);
          }
        }
      }
    }
  }

  /** Exactly the lines of fewer than five words, or whose fifth does not begin with a number, or
      whose first has no dash, are passed over; no other line is, however bad its numbers are. */
  lemma SkippedExactly(line: string)
    ensures ParseLine(line).Skipped? <==>
            |WordsOf(line)| < 5 || !LeadsWithNumber(WordsOf(line)[4]) || '-' !in WordsOf(line)[0]
  {
    hide ParseHex, ReadFields, WordsOf, LeadsWithNumber;
    FieldsAreWords(line);
  }

  lemma OneLine(line: string)
    requires '\n' !in line
    ensures LinesOf(line + "\n") == [line] && EndsLine(line + "\n")
  {
    var text := line + "\n";
    assert text[..|line|] == line && text[|line| + 1..] == "";
    LineLengthIs(text, |line|);
  }

  /** Wherever such a line stands, the text parses, or fails to, as if it were not there. */
  lemma SkippedCountsForNothing(a: string, line: string, b: string)
    requires EndsLine(a) && '\n' !in line && ParseLine(line).Skipped?
    ensures ParseLines(LinesOf(a + ((line + "\n") + b))) == ParseLines(LinesOf(a + b))
  {
    hide ParseLine, LinesOf;
    OneLine(line);
    NothingParsed(line);
    ParseDistributes(line + "\n", b);
    ParseDistributes(a, (line + "\n") + b);
    ParseDistributes(a, b);
    hide ParseLines;
    assert ParseLines(LinesOf(b)).Ok? ==> [] + ParseLines(LinesOf(b)).value == ParseLines(LinesOf(b)).value;
  }

  lemma NothingParsed(line: string)
    requires ParseLine(line).Skipped?
    ensures ParseLines([line]) == Ok([])
  {
    hide ParseLine;
    assert [line][..0] == [];
  }

  // ----- printing

  /** A mapping with the fields of its line that the program does not keep. */
  datatype Entry = Entry(mapping: Mapping, permissions: string, device: string, inode: nat, padding: nat)

  predicate NoSpaces(s: string) {
    forall i :: 0 <= i < |s| ==> !IsSpace(s[i])
  }

  predicate AllSpaces(s: string) {
    forall i :: 0 <= i < |s| ==> s[i] == ' '
  }

  /** The device is a word, the path has no newline and does not begin with a blank, and at least one
      blank separates it from the inode. */
  predicate Printable(e: Entry) {
    && |e.permissions| == 4 && NoSpaces(e.permissions)
    && (e.permissions[2] == 'x') == e.mapping.executable
    && e.device != "" && NoSpaces(e.device)
    && e.inode < TWO64
    && '\n' !in e.mapping.path
    && (e.mapping.path != "" ==> e.mapping.path[0] != ' ' && e.padding >= 1)
  }

  function Digit(d: nat): (c: char)
    requires d < 16
    ensures IsHex(c) && DigitValue(c) == d && c != '-' && c != '+' && !IsSpace(c) && (d < 10 ==> IsDecimal(c))
  {
    if d < 10 then '0' + (d as char) else 'a' + ((d - 10) as char)
  }

  /** At least width digits. */
  function Hex(n: nat, width: nat): string
    decreases n, width
  {
    if n == 0 && width == 0 then ""
    else Hex(n / 16, if width == 0 then 0 else width - 1) + [Digit(n % 16)]
  }

  function Decimal(n: nat): string
    decreases n
  {
    if n < 10 then [Digit(n)] else Decimal(n / 10) + [Digit(n % 10)]
  }

  function Blanks(n: nat): (s: string)
    ensures |s| == n && AllSpaces(s)
  {
    seq(n, _ => ' ')
  }

  function PrintRest(e: Entry): string {
    Blanks(e.padding) + e.mapping.path
  }

  function Print(e: Entry): string {
    (Hex(e.mapping.start, 8) + "-" + Hex(e.mapping.end, 8))
    + (" " + e.permissions
       + (" " + Hex(e.mapping.fileOffset, 8)
          + (" " + e.device
             + (" " + Decimal(e.inode) + PrintRest(e)))))
  }

  // ----- reading back

  predicate AllHex(s: string) {
    forall i :: 0 <= i < |s| ==> IsHex(s[i])
  }

  predicate AllDecimal(s: string) {
    forall i :: 0 <= i < |s| ==> IsDecimal(s[i])
  }

  lemma {:induction false} HexBack(n: nat, width: nat)
    ensures AllHex(Hex(n, width)) && HexValue(Hex(n, width)) == n && |Hex(n, width)| >= width
    decreases n, width
  {
    if !(n == 0 && width == 0) {
      var front := Hex(n / 16, if width == 0 then 0 else width - 1);
      HexBack(n / 16, if width == 0 then 0 else width - 1);
      assert (front + [Digit(n % 16)])[..|front|] == front;
    }
  }

  lemma {:induction false} DecimalBack(n: nat)
    ensures AllDecimal(Decimal(n)) && DecimalValue(Decimal(n)) == n && Decimal(n) != ""
    decreases n
  {
    if n < 10 {
      assert [Digit(n)][..0] == "";
    } else {
      DecimalBack(n / 10);
      assert (Decimal(n / 10) + [Digit(n % 10)])[..|Decimal(n / 10)|] == Decimal(n / 10);
    }
  }

  lemma {:induction false} HexDigitsLength(s: string)
    requires AllHex(s)
    ensures DigitsLength(s, true) == |s|
  {
    if s != "" {
      HexDigitsLength(s[1..]);
    }
  }

  lemma {:induction false} DecimalDigitsLength(s: string, rest: string)
    requires AllDecimal(s) && (rest == "" || !IsDecimal(rest[0]))
    ensures DigitsLength(s + rest, false) == |s|
  {
    if s == "" {
      assert s + rest == rest;
    } else {
      assert (s + rest)[1..] == s[1..] + rest;
      DecimalDigitsLength(s[1..], rest);
    }
  }

  /** A printed hexadecimal field is read back, leading zeros and all. */
  lemma HexRoundTrip(n: u64)
    ensures ParseHex(Hex(n, 8)) == Ok(n)
  {
    var s := Hex(n, 8);
    HexBack(n, 8);
    HexDigitsLength(s);
    assert IsHex(s[0]) && IsHex(s[1]);
    assert SkipSign(s) == s && SkipPrefix(s) == s;
    assert s[..|s|] == s;
  }

  lemma {:induction false} SkipBlanks(blanks: string, s: string)
    requires AllSpaces(blanks) && (s == "" || !IsSpace(s[0]))
    ensures SkipSpaces(blanks + s) == s
  {
    if blanks == "" {
      assert blanks + s == s;
    } else {
      assert (blanks + s)[1..] == blanks[1..] + s;
      SkipBlanks(blanks[1..], s);
    }
  }

  lemma {:induction false} TrimBlanks(blanks: string, s: string)
    requires AllSpaces(blanks) && (s == "" || s[0] != ' ')
    ensures TrimLeft(blanks + s) == s
  {
    if blanks == "" {
      assert blanks + s == s;
    } else {
      assert (blanks + s)[1..] == blanks[1..] + s;
      TrimBlanks(blanks[1..], s);
    }
  }

  lemma {:induction false} TokenLengthIs(token: string, rest: string)
    requires NoSpaces(token) && (rest == "" || IsSpace(rest[0]))
    ensures TokenLength(token + rest) == |token|
  {
    if token == "" {
      assert token + rest == rest;
    } else {
      assert (token + rest)[1..] == token[1..] + rest;
      TokenLengthIs(token[1..], rest);
    }
  }

  lemma ReadsToken(blanks: string, token: string, rest: string)
    requires AllSpaces(blanks) && token != "" && NoSpaces(token) && (rest == "" || IsSpace(rest[0]))
    ensures ReadToken(blanks + token + rest) == Some(Read(token, rest))
  {
    assert blanks + token + rest == blanks + (token + rest);
    SkipBlanks(blanks, token + rest);
    TokenLengthIs(token, rest);
    assert (token + rest)[..|token|] == token && (token + rest)[|token|..] == rest;
  }

  predicate StartsBlank(s: string) {
    s == "" || s[0] == ' '
  }

  lemma SkipsNumber(n: nat, rest: string)
    requires n < TWO64 && StartsBlank(rest)
    ensures SkipNumber(" " + Decimal(n) + rest) == Some(rest) && StartsBlank(" " + Decimal(n) + rest)
  {
    var digits := Decimal(n);
    DecimalBack(n);
    assert " " + digits + rest == " " + (digits + rest);
    assert (digits + rest)[0] == digits[0];
    SkipBlanks(" ", digits + rest);
    DecimalDigitsLength(digits, rest);
    assert SkipSign(digits + rest) == digits + rest;
    assert (digits + rest)[..|digits|] == digits && (digits + rest)[|digits|..] == rest;
  }

  lemma RestStarts(e: Entry)
    requires Printable(e)
    ensures StartsBlank(PrintRest(e))
  {
  }

  lemma ReadsFirst(token: string, rest: string)
    requires token != "" && NoSpaces(token) && StartsBlank(rest)
    ensures ReadToken(token + rest) == Some(Read(token, rest))
  {
    ReadsToken("", token, rest);
    assert "" + token + rest == token + rest;
  }

  lemma ReadsNext(token: string, rest: string)
    requires token != "" && NoSpaces(token) && StartsBlank(rest)
    ensures ReadToken(" " + token + rest) == Some(Read(token, rest)) && StartsBlank(" " + token + rest)
  {
    ReadsToken(" ", token, rest);
  }

  lemma RangeField(m: Mapping)
    ensures var range := Hex(m.start, 8) + "-" + Hex(m.end, 8);
      && range != "" && NoSpaces(range)
      && IndexOf(range, '-') == |Hex(m.start, 8)| < |range|
      && range[..|Hex(m.start, 8)|] == Hex(m.start, 8)
      && range[|Hex(m.start, 8)| + 1..] == Hex(m.end, 8)
  {
    HexBack(m.start, 8);
    HexBack(m.end, 8);
    hide Hex;
    DashAfter(Hex(m.start, 8), "-" + Hex(m.end, 8));
    assert Hex(m.start, 8) + "-" + Hex(m.end, 8) == Hex(m.start, 8) + ("-" + Hex(m.end, 8));
  }

  lemma OffsetField(n: nat)
    ensures Hex(n, 8) != "" && NoSpaces(Hex(n, 8))
  {
    HexBack(n, 8);
    hide Hex;
  }

  lemma {:induction false} DashAfter(s: string, t: string)
    requires AllHex(s) && t != "" && t[0] == '-'
    ensures IndexOf(s + t, '-') == |s|
  {
    if s == "" {
      assert s + t == t;
    } else {
      assert (s + t)[1..] == s[1..] + t;
      DashAfter(s[1..], t);
    }
  }

  lemma PrintRegrouped(e: Entry, r4: string, r3: string, r2: string, r1: string)
    requires r4 == " " + Decimal(e.inode) + PrintRest(e)
    requires r3 == " " + e.device + r4
    requires r2 == " " + Hex(e.mapping.fileOffset, 8) + r3
    requires r1 == " " + e.permissions + r2
    ensures Print(e) == (Hex(e.mapping.start, 8) + "-" + Hex(e.mapping.end, 8)) + r1
  {
    hide Hex, Decimal, PrintRest;
  }

  lemma ReadFieldsIs(line: string, range: Read, permissions: Read, offset: Read, device: Read, rest: string)
    requires ReadToken(line) == Some(range) && ReadToken(range.rest) == Some(permissions)
    requires ReadToken(permissions.rest) == Some(offset) && ReadToken(offset.rest) == Some(device)
    requires SkipNumber(device.rest) == Some(rest)
    ensures ReadFields(line) == Some(Fields(range.token, permissions.token, offset.token, rest))
  {
    hide ReadToken, SkipNumber;
  }

  lemma FieldsOfPrinted(e: Entry)
    requires Printable(e)
    ensures ReadFields(Print(e)) == Some(Fields(Hex(e.mapping.start, 8) + "-" + Hex(e.mapping.end, 8), e.permissions,
                                                Hex(e.mapping.fileOffset, 8), PrintRest(e)))
  {
    var range, offset := Hex(e.mapping.start, 8) + "-" + Hex(e.mapping.end, 8), Hex(e.mapping.fileOffset, 8);
    RangeField(e.mapping);
    OffsetField(e.mapping.fileOffset);
    RestStarts(e);
    hide Hex, PrintRest, Decimal, ReadToken, SkipNumber, Print, IndexOf, ReadFields, StartsBlank, NoSpaces, IsSpace;
    var r4 := " " + Decimal(e.inode) + PrintRest(e);
    var r3 := " " + e.device + r4;
    var r2 := " " + offset + r3;
    var r1 := " " + e.permissions + r2;
    PrintRegrouped(e, r4, r3, r2, r1);
    SkipsNumber(e.inode, PrintRest(e));
    ReadsNext(e.device, r4);
    ReadsNext(offset, r3);
    ReadsNext(e.permissions, r2);
    ReadsFirst(range, r1);
    ReadFieldsIs(Print(e), Read(range, r1), Read(e.permissions, r2), Read(offset, r3), Read(e.device, r4), PrintRest(e));
  }

  /** A printed line is parsed back to its mapping. */
  lemma LineRoundTrip(e: Entry)
    requires Printable(e)
    ensures ParseLine(Print(e)) == Parsed(e.mapping)
  {
    hide Print, ReadFields, ParseHex, Hex, IndexOf, TrimLeft;
    FieldsOfPrinted(e);
    RangeField(e.mapping);
    HexRoundTrip(e.mapping.start);
    HexRoundTrip(e.mapping.end);
    HexRoundTrip(e.mapping.fileOffset);
    TrimBlanks(Blanks(e.padding), e.mapping.path);
  }

  function PrintAll(es: seq<Entry>): string {
    if es == [] then "" else (Print(es[0]) + "\n") + PrintAll(es[1..])
  }

  function MappingsOf(es: seq<Entry>): seq<Mapping> {
    if es == [] then [] else [es[0].mapping] + MappingsOf(es[1..])
  }

  lemma NoNewline(e: Entry)
    requires Printable(e)
    ensures '\n' !in Print(e)
  {
    RangeField(e.mapping);
    HexBack(e.mapping.fileOffset, 8);
    DecimalBack(e.inode);
    hide Hex, Decimal;
  }

  lemma OneParsed(line: string, m: Mapping)
    requires ParseLine(line) == Parsed(m)
    ensures ParseLines([line]) == Ok([m])
  {
    hide ReadFields, ParseFields;
    assert [line][..0] == [] && [] + [m] == [m];
    assert ParseLines([]) == Ok([]);
    assert ParseLines([line]) == Extend(ParseLines([line][..0]), ParseLine(line));
  }

  /** Printing any list of mappings in the format of proc(5) and parsing the text gives the list
      back: every 64-bit address and offset, blanks inside paths, and mappings without a path. */
  lemma {:induction false} MapsRoundTrips(es: seq<Entry>)
    requires forall i :: 0 <= i < |es| ==> Printable(es[i])
    ensures ParseLines(LinesOf(PrintAll(es))) == Ok(MappingsOf(es))
  {
    if es != [] {
      hide Print, ParseLine, Printable, LinesOf, ParseLines;
      var line := Print(es[0]);
      NoNewline(es[0]);
      OneLine(line);
      LineRoundTrip(es[0]);
      MapsRoundTrips(es[1..]);
      ParseDistributes(line + "\n", PrintAll(es[1..]));
      OneParsed(line, es[0].mapping);
    }
  }
}
