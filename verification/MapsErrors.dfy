/** Which numbers the parser of /proc/<pid>/maps accepts, what a line comes to word by word, and what a bad
    number does (src/symbols/symbolizer.cpp:166-195). */
module MapsErrors {
  import opened Results
  import opened Words
  import opened ProcMaps
  import opened MapsRoundTrip

  // ----- numbers

  const LOWER: string := "0123456789abcdef"
  const UPPER: string := "0123456789ABCDEF"

  predicate Denotes(c: char, d: nat) {
    d < 16 && (c == LOWER[d] || c == UPPER[d])
  }

  predicate Spells(digits: string, ds: seq<nat>) {
    |digits| == |ds| && forall i :: 0 <= i < |digits| ==> Denotes(digits[i], ds[i])
  }

  /** The value of digits to base 16 after what has been read already. */
  function Base16(high: nat, ds: seq<nat>): nat
    decreases |ds|
  {
    if ds == [] then high else Base16(16 * high + ds[0], ds[1..])
  }

  ghost predicate StartsHex(s: string) {
    s != "" && exists d: nat :: Denotes(s[0], d)
  }

  predicate Marks(s: string) {
    s == "0x" || s == "0X"
  }

  /** A sign or none, a prefix or none, at least one digit, and something that begins with no digit. A zero
      before an x and a digit is not the number but its prefix. */
  ghost predicate Numeral(s: string, sign: string, prefix: string, digits: string, ds: seq<nat>, tail: string) {
    && s == sign + (prefix + (digits + tail))
    && (sign == "" || sign == "+" || sign == "-")
    && (prefix == "" || Marks(prefix))
    && digits != "" && Spells(digits, ds)
    && !StartsHex(tail)
    && (prefix == "" && digits == "0" && |tail| >= 2 && Marks("0" + tail[..1]) ==> !StartsHex(tail[1..]))
  }

  lemma DigitOf(c: char)
    ensures IsHex(c) <==> exists d: nat :: Denotes(c, d)
    ensures forall d: nat :: Denotes(c, d) ==> DigitValue(c) == d
    ensures IsHex(c) ==> Denotes(c, DigitValue(c))
  {
    if IsHex(c) {
      assert Denotes(c, DigitValue(c));
    }
  }

  lemma {:induction false} SpelledLength(digits: string, ds: seq<nat>, tail: string)
    requires Spells(digits, ds) && !StartsHex(tail)
    ensures DigitsLength(digits + tail, true) == |digits|
  {
    if digits == "" {
      assert digits + tail == tail;
      if tail != "" {
        DigitOf(tail[0]);
      }
    } else {
      hide Denotes;
      DigitOf(digits[0]);
      assert Denotes((digits + tail)[0], ds[0]);
      assert (digits + tail)[1..] == digits[1..] + tail;
      SpelledLength(digits[1..], ds[1..], tail);
    }
  }

  lemma {:induction false} SpelledValue(digits: string, ds: seq<nat>)
    requires Spells(digits, ds)
    ensures HexValue(digits) == Base16(0, ds)
  {
    hide Denotes;
    if digits != "" {
      var front, last := digits[..|digits| - 1], digits[|digits| - 1];
      SpelledValue(front, ds[..|ds| - 1]);
      DigitOf(last);
      assert Denotes(last, ds[|ds| - 1]);
      Base16Last(0, ds);
    }
  }

  lemma {:induction false} Base16Last(high: nat, ds: seq<nat>)
    requires ds != []
    ensures Base16(high, ds) == 16 * Base16(high, ds[..|ds| - 1]) + ds[|ds| - 1]
    decreases |ds|
  {
    if |ds| > 1 {
      Base16Last(16 * high + ds[0], ds[1..]);
      assert ds[1..][..|ds| - 2] == ds[..|ds| - 1][1..];
    }
  }

  lemma NotBothDigitAndMark(c: char)
    ensures IsHex(c) ==> c != 'x' && c != 'X' && c != '+' && c != '-'
  {
  }

  lemma PrefixSkipped(prefix: string, digits: string, ds: seq<nat>, tail: string)
    requires prefix == "" || Marks(prefix)
    requires digits != "" && Spells(digits, ds)
    requires prefix == "" && digits == "0" && |tail| >= 2 && Marks("0" + tail[..1]) ==> !StartsHex(tail[1..])
    ensures SkipPrefix(prefix + (digits + tail)) == digits + tail
  {
    var s := prefix + (digits + tail);
    DigitOf(digits[0]);
    assert Denotes(digits[0], ds[0]);
    if prefix == "" {
      assert s == digits + tail && s[0] == digits[0];
      if |digits| > 1 {
        assert Denotes(digits[1], ds[1]);
        DigitOf(digits[1]);
        NotBothDigitAndMark(digits[1]);
        assert s[1] == digits[1];
      } else if |tail| >= 2 {
        assert digits == [digits[0]] && s[1] == tail[0] && s[2] == tail[1];
        assert tail[1..][0] == tail[1];
        DigitOf(tail[1]);
        if digits[0] == '0' && (tail[0] == 'x' || tail[0] == 'X') {
          assert digits == "0" && Marks("0" + tail[..1]);
        }
      }
    } else {
      assert s[2..] == digits + tail && s[2] == digits[0];
    }
  }

  lemma SignSkipped(sign: string, rest: string)
    requires (sign == "" || sign == "+" || sign == "-") && rest != "" && rest[0] != '+' && rest[0] != '-'
    ensures SkipSign(sign + rest) == rest && ((sign + rest)[0] == '-' <==> sign == "-")
  {
    if sign == "" {
      assert sign + rest == rest;
    } else {
      assert (sign + rest)[1..] == rest;
    }
  }

  lemma RestStarts(prefix: string, digits: string, ds: seq<nat>, tail: string)
    requires (prefix == "" || Marks(prefix)) && digits != "" && Spells(digits, ds)
    ensures var rest := prefix + (digits + tail); rest != "" && rest[0] != '+' && rest[0] != '-'
  {
    DigitOf(digits[0]);
    NotBothDigitAndMark(digits[0]);
    assert Denotes(digits[0], ds[0]);
  }

  /** A numeral is read as its value, negated modulo 2^64 after a minus sign, unless it does not fit. */
  lemma NumeralIsRead(s: string, sign: string, prefix: string, digits: string, ds: seq<nat>, tail: string)
    requires Numeral(s, sign, prefix, digits, ds, tail)
    ensures var value := Base16(0, ds);
      ParseHex(s) == if value >= TWO64 then Err(OutOfRange)
                     else Ok(if sign == "-" && value > 0 then TWO64 - value else value)
  {
    hide Denotes, Spells, StartsHex, HexValue, Base16, DigitsLength, SkipPrefix, SkipSign, Marks;
    RestStarts(prefix, digits, ds, tail);
    SignSkipped(sign, prefix + (digits + tail));
    PrefixSkipped(prefix, digits, ds, tail);
    SpelledLength(digits, ds, tail);
    SpelledValue(digits, ds);
    assert (digits + tail)[..|digits|] == digits;
  }

  lemma {:induction false} DigitsSpell(s: string) returns (ds: seq<nat>)
    ensures Spells(s[..DigitsLength(s, true)], ds) && !StartsHex(s[DigitsLength(s, true)..])
  {
    hide Denotes;
    if s == "" {
      ds := [];
    } else {
      DigitOf(s[0]);
      if IsHex(s[0]) {
        var rest := DigitsSpell(s[1..]);
        ds := [DigitValue(s[0])] + rest;
        var n := DigitsLength(s, true);
        assert s[..n] == [s[0]] + s[1..][..n - 1] && s[n..] == s[1..][n - 1..];
      } else {
        ds := [];
      }
    }
  }

  lemma SignTaken(s: string) returns (sign: string)
    ensures s == sign + SkipSign(s) && (sign == "" || sign == "+" || sign == "-")
  {
    sign := s[..|s| - |SkipSign(s)|];
  }

  lemma PrefixTaken(s: string) returns (prefix: string)
    ensures s == prefix + SkipPrefix(s) && (prefix == "" || Marks(prefix))
  {
    prefix := s[..|s| - |SkipPrefix(s)|];
  }

  /** What is accepted, or only too large, is a numeral. */
  lemma OnlyNumeralsAreRead(s: string) returns (sign: string, prefix: string, digits: string, ds: seq<nat>, tail: string)
    requires ParseHex(s) != Err(InvalidArgument)
    ensures Numeral(s, sign, prefix, digits, ds, tail)
  {
    hide Denotes, Spells, StartsHex, HexValue, DigitsLength, SkipSign, SkipPrefix, Marks;
    sign := SignTaken(s);
    prefix := PrefixTaken(SkipSign(s));
    var t := SkipPrefix(SkipSign(s));
    ds := DigitsSpell(t);
    digits, tail := t[..DigitsLength(t, true)], t[DigitsLength(t, true)..];
    assert t == digits + tail;
    NoHiddenPrefix(SkipSign(s), prefix, digits, tail);
  }

  lemma NoHiddenPrefix(unsigned: string, prefix: string, digits: string, tail: string)
    requires unsigned == prefix + (digits + tail) && SkipPrefix(unsigned) == digits + tail
    ensures prefix == "" && digits == "0" && |tail| >= 2 && Marks("0" + tail[..1]) ==> !StartsHex(tail[1..])
  {
    if prefix == "" && digits == "0" && |tail| >= 2 && Marks("0" + tail[..1]) {
      assert unsigned == "0" + tail && unsigned[1] == tail[0] && unsigned[2] == tail[1];
      assert ("0" + tail[..1])[1] == tail[0];
      DigitOf(tail[1]);
      assert |SkipPrefix(unsigned)| == |unsigned|;
    }
  }

  // ----- a line, word by word

  /** The first of three readings that fails. */
  function FirstError(x: Result<u64, MapsError>, y: Result<u64, MapsError>, z: Result<u64, MapsError>): Option<MapsError> {
    if x.Err? then Some(x.error) else if y.Err? then Some(y.error) else if z.Err? then Some(z.error) else None
  }

  lemma FieldWords(line: string)
    requires ReadFields(line).Some?
    ensures |WordsOf(line)| >= 5
    ensures var f, words := ReadFields(line).value, WordsOf(line);
      f.range == words[0] && f.permissions == words[1] && f.offset == words[2]
  {
    hide ReadToken, SkipNumber, WordsOf, LeadsWithNumber;
    FieldsAreWords(line);
    ReadsFirstWord(line);
    var after := ReadToken(line).value.rest;
    ReadsFirstWord(after);
    var after2 := ReadToken(after).value.rest;
    ReadsFirstWord(after2);
  }

  lemma {:induction false} DashAt(s: string, i: nat)
    requires i < |s| && s[i] == '-' && '-' !in s[..i]
    ensures IndexOf(s, '-') == i
  {
    if i > 0 {
      assert s[..i][0] == s[0] && s[1..][..i - 1] == s[..i][1..];
      DashAt(s[1..], i - 1);
    }
  }

  /** Of a line that is not passed over, split at the first dash of its first word: the first number in it
      that cannot be read is its error, the end after the start and before the offset; else they
      are the mapping's, which is executable if the second word's third letter says so. */
  lemma LineIsWords(line: string, i: nat)
    requires !ParseLine(line).Skipped?
    requires |WordsOf(line)| >= 5 && i < |WordsOf(line)[0]| && WordsOf(line)[0][i] == '-' && '-' !in WordsOf(line)[0][..i]
    ensures var words := WordsOf(line);
      var start, end, offset := ParseHex(words[0][..i]), ParseHex(words[0][i + 1..]), ParseHex(words[2]);
      var error := FirstError(start, end, offset);
      if error.Some? then ParseLine(line) == Bad(error.value)
      else
        && ParseLine(line).Parsed?
        && var m := ParseLine(line).mapping;
        && m.start == start.value && m.end == end.value && m.fileOffset == offset.value
        && m.executable == (|words[1]| > 2 && words[1][2] == 'x')
        && (m.path == "" || m.path[0] != ' ')
  {
    hide ReadFields, WordsOf, ParseHex, TrimLeft;
    FieldWords(line);
    DashAt(WordsOf(line)[0], i);
    Trimmed(ReadFields(line).value.rest);
  }

  lemma {:induction false} Trimmed(s: string)
    ensures TrimLeft(s) == "" || TrimLeft(s)[0] != ' '
  {
    if s != "" && s[0] == ' ' {
      Trimmed(s[1..]);
    }
  }

  /** A bad number anywhere is the end of the parse, whatever follows. */
  lemma BadLineEndsParse(a: string, line: string, b: string)
    requires EndsLine(a) && '\n' !in line && ParseLine(line).Bad?
    requires ParseLines(LinesOf(a)).Ok?
    ensures ParseLines(LinesOf(a + ((line + "\n") + b))) == Err(ParseLine(line).error)
  {
    hide ParseLine, LinesOf;
    OneLine(line);
    OneBad(line);
    ParseDistributes(line + "\n", b);
    ParseDistributes(a, (line + "\n") + b);
  }

  lemma OneBad(line: string)
    requires ParseLine(line).Bad?
    ensures ParseLines([line]) == Err(ParseLine(line).error)
  {
    hide ParseLine;
    assert [line][..0] == [];
    assert ParseLines([line]) == Extend(ParseLines([line][..0]), ParseLine(line));
  }
}
