/** Parsing /proc/<pid>/maps (src/symbols/symbolizer.cpp:34-37, 166-195), with the reading rules of
    std::getline, operator>> and std::stoull in the C locale. */
module ProcMaps {
  import opened Results
  import opened Words
  import opened AddressResolution

  // ----- lines

  /** The lines of a text; a newline ends a line and does not start another. */
  function LinesOf(text: string): seq<string>
    decreases |text|
  {
    if text == "" then []
    else
      var n := LineLength(text);
      [text[..n]] + (if n == |text| then [] else LinesOf(text[n + 1..]))
  }

  function LineLength(text: string): (n: nat)
    ensures n <= |text| && '\n' !in text[..n] && (n < |text| ==> text[n] == '\n')
  {
    if text == "" || text[0] == '\n' then 0
    else
      var n := LineLength(text[1..]);
      assert text[..n + 1] == [text[0]] + text[1..][..n];
      n + 1
  }

  // ----- tokens and numbers

  predicate IsSpace(c: char) {
    c == ' ' || '\t' <= c <= '\r'
  }

  function SkipSpaces(s: string): (r: string)
    ensures |r| <= |s| && (r == "" || !IsSpace(r[0]))
  {
    if s != "" && IsSpace(s[0]) then SkipSpaces(s[1..]) else s
  }

  function TokenLength(s: string): (n: nat)
    ensures n <= |s|
  {
    if s == "" || IsSpace(s[0]) then 0 else 1 + TokenLength(s[1..])
  }

  datatype Read = Read(token: string, rest: string)

  /** operator>> into a string: skips white space and reads up to the next. */
  function ReadToken(s: string): Option<Read> {
    var t := SkipSpaces(s);
    if t == "" then None else Some(Read(t[..TokenLength(t)], t[TokenLength(t)..]))
  }

  predicate IsDecimal(c: char) {
    '0' <= c <= '9'
  }

  predicate IsHex(c: char) {
    IsDecimal(c) || 'a' <= c <= 'f' || 'A' <= c <= 'F'
  }

  function DigitValue(c: char): nat {
    if IsDecimal(c) then c as int - '0' as int
    else if 'a' <= c <= 'f' then c as int - 'a' as int + 10
    else if 'A' <= c <= 'F' then c as int - 'A' as int + 10
    else 0
  }

  function DigitsLength(s: string, hex: bool): (n: nat)
    ensures n <= |s|
  {
    if s == "" || !(if hex then IsHex(s[0]) else IsDecimal(s[0])) then 0 else 1 + DigitsLength(s[1..], hex)
  }

  function HexValue(digits: string): nat {
    if digits == "" then 0 else 16 * HexValue(digits[..|digits| - 1]) + DigitValue(digits[|digits| - 1])
  }

  function DecimalValue(digits: string): nat {
    if digits == "" then 0 else 10 * DecimalValue(digits[..|digits| - 1]) + DigitValue(digits[|digits| - 1])
  }

  function SkipSign(s: string): string {
    if s != "" && (s[0] == '+' || s[0] == '-') then s[1..] else s
  }

  /** operator>> into a 64-bit unsigned integer: what is left after it, if it succeeds. */
  function SkipNumber(s: string): Option<string> {
    var t := SkipSign(SkipSpaces(s));
    var n := DigitsLength(t, false);
    if n == 0 || DecimalValue(t[..n]) >= TWO64 then None else Some(t[n..])
  }

  datatype MapsError = InvalidArgument | OutOfRange

  function SkipPrefix(s: string): string {
    if |s| > 2 && s[0] == '0' && (s[1] == 'x' || s[1] == 'X') && IsHex(s[2]) then s[2..] else s
  }

  /** std::stoull in base 16, of a token: an optional sign and prefix, then digits; what follows
      them is ignored, and a minus sign negates modulo 2^64. */
  function ParseHex(s: string): Result<u64, MapsError> {
    var t := SkipPrefix(SkipSign(s));
    var n := DigitsLength(t, true);
    if n == 0 then Err(InvalidArgument)
    else
      var value := HexValue(t[..n]);
      if value >= TWO64 then Err(OutOfRange)
      else Ok(if s[0] == '-' then Sub64(0, value) else value)
  }

  function TrimLeft(s: string): string {
    if s != "" && s[0] == ' ' then TrimLeft(s[1..]) else s
  }

  function IndexOf(s: string, c: char): (i: nat)
    ensures i <= |s| && (i < |s| <==> c in s)
  {
    if s == "" || s[0] == c then 0 else 1 + IndexOf(s[1..], c)
  }

  // ----- one line

  datatype Fields = Fields(range: string, permissions: string, offset: string, rest: string)

  /** The five leading fields and what follows them on the line. */
  function ReadFields(line: string): Option<Fields> {
    var range := ReadToken(line);
    if range.None? then None else
    var permissions := ReadToken(range.value.rest);
    if permissions.None? then None else
    var offset := ReadToken(permissions.value.rest);
    if offset.None? then None else
    var device := ReadToken(offset.value.rest);
    if device.None? then None else
    var rest := SkipNumber(device.value.rest);
    if rest.None? then None else
    Some(Fields(range.value.token, permissions.value.token, offset.value.token, rest.value))
  }

  datatype LineResult = Skipped | Parsed(mapping: Mapping) | Bad(error: MapsError)

  function ParseFields(f: Fields): LineResult {
    var separator := IndexOf(f.range, '-');
    if separator == |f.range| then Skipped
    else
      var start := ParseHex(f.range[..separator]);
      if start.Err? then Bad(start.error) else
      var end := ParseHex(f.range[separator + 1..]);
      if end.Err? then Bad(end.error) else
      var fileOffset := ParseHex(f.offset);
      if fileOffset.Err? then Bad(fileOffset.error) else
      Parsed(Mapping(start.value, end.value, fileOffset.value,
                     |f.permissions| > 2 && f.permissions[2] == 'x', TrimLeft(f.rest)))
  }

  function ParseLine(line: string): LineResult {
    var fields := ReadFields(line);
    if fields.None? then Skipped else ParseFields(fields.value)
  }

  // ----- all lines

  /** The mappings so far, after one more line; the first error stops the parse. */
  function Extend(before: Result<seq<Mapping>, MapsError>, line: LineResult): Result<seq<Mapping>, MapsError> {
    if before.Err? then before
    else match line
         case Skipped => before
         case Parsed(mapping) => Ok(before.value + [mapping])
         case Bad(error) => Err(error)
  }

  function ParseLines(lines: seq<string>): Result<seq<Mapping>, MapsError> {
    if lines == [] then Ok([])
    else
      Extend(ParseLines(lines[..|lines| - 1]), ParseLine(lines[|lines| - 1]))
  }

  method ParseProcMaps(contents: string) returns (r: Result<seq<Mapping>, MapsError>)
    ensures r == ParseLines(LinesOf(contents))
  {
    hide ParseFields, ReadFields, LinesOf;
    var lines := LinesOf(contents);
    var mappings: seq<Mapping> := [];
    for i := 0 to |lines|
      invariant ParseLines(lines[..i]) == Ok(mappings)
    {
      assert lines[..i + 1][..i] == lines[..i];
      var fields := ReadFields(lines[i]);
      if fields.Some? {
        match ParseFields(fields.value)
        case Skipped =>
        case Parsed(mapping) => mappings := mappings + [mapping];
        case Bad(error) =>
          ErrorStays(lines, i + 1);
          return Err(error);
      }
    }
    assert lines[..|lines|] == lines;
    r := Ok(mappings);
  }

  lemma {:induction false} ErrorStays(lines: seq<string>, k: nat)
    requires k <= |lines| && ParseLines(lines[..k]).Err?
    ensures ParseLines(lines) == ParseLines(lines[..k])
  {
    if k < |lines| {
      assert lines[..|lines| - 1][..k] == lines[..k];
      ErrorStays(lines[..|lines| - 1], k);
    } else {
      assert lines[..k] == lines;
    }
  }
}
