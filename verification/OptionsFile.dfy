/** The options file: its split into lines, and the list of numbers that holds the server's key. */
module OptionsFile {
  import opened Prelude
  import Decimal

  const MAX_FILE_SIZE: nat := 1024
  const SSPK_OPTION: string := "sspk"

  // -------- Splitting at a separator --------

  function Split(text: string, separator: char): (parts: seq<string>)
    ensures parts != []
  {
    if text == [] then [""]
    else
      var rest := Split(text[1..], separator);
      if text[0] == separator then [""] + rest else [[text[0]] + rest[0]] + rest[1..]
  }

  function Join(parts: seq<string>, separator: char): string
    requires parts != []
  {
    if |parts| == 1 then parts[0] else parts[0] + [separator] + Join(parts[1..], separator)
  }

  // Joining with another character in front of the first part.
  lemma JoinOn(c: char, parts: seq<string>, separator: char)
    requires parts != []
    ensures Join([[c] + parts[0]] + parts[1..], separator) == [c] + Join(parts, separator)
    ensures Join([""] + parts, separator) == [separator] + Join(parts, separator)
  {
    var more := [[c] + parts[0]] + parts[1..];
    assert more[1..] == parts[1..] && ([""] + parts)[1..] == parts;
    if |parts| > 1 {
      assert [c] + (parts[0] + [separator] + Join(parts[1..], separator))
          == [c] + parts[0] + [separator] + Join(parts[1..], separator);
    }
  }

  // The parts contain no separator, and joined again they are the text.
  lemma {:induction false} JoinSplit(text: string, separator: char)
    ensures var parts := Split(text, separator);
      Join(parts, separator) == text && forall i :: 0 <= i < |parts| ==> separator !in parts[i]
  {
    if text != [] {
      JoinSplit(text[1..], separator);
      JoinOn(text[0], Split(text[1..], separator), separator);
      hide Join;
      assert [text[0]] + text[1..] == text;
    }
  }

  lemma {:induction false} SplitWhole(part: string, separator: char)
    requires separator !in part
    ensures Split(part, separator) == [part]
  {
    if part != [] {
      SplitWhole(part[1..], separator);
      assert [part[0]] + part[1..] == part;
    }
  }

  lemma {:induction false} SplitFirst(part: string, separator: char, rest: string)
    requires separator !in part
    ensures Split(part + [separator] + rest, separator) == [part] + Split(rest, separator)
  {
    var text := part + [separator] + rest;
    if part == [] {
      assert text[1..] == rest;
    } else {
      assert text[1..] == part[1..] + [separator] + rest;
      SplitFirst(part[1..], separator, rest);
      assert [part[0]] + part[1..] == part;
    }
  }

  // No other parts without the separator join to the same text.
  lemma {:induction false} SplitJoin(parts: seq<string>, separator: char)
    requires parts != [] && forall i :: 0 <= i < |parts| ==> separator !in parts[i]
    ensures Split(Join(parts, separator), separator) == parts
  {
    if |parts| == 1 {
      SplitWhole(parts[0], separator);
    } else {
      SplitJoin(parts[1..], separator);
      SplitFirst(parts[0], separator, Join(parts[1..], separator));
    }
  }

  // What is still to come after i characters, when a part has been begun.
  function Continued(line: string, rest: seq<string>): seq<string>
    requires rest != []
  {
    [line + rest[0]] + rest[1..]
  }

  lemma NothingBegun(rest: seq<string>)
    requires rest != []
    ensures Continued("", rest) == rest
  {
    assert "" + rest[0] == rest[0] && [rest[0]] + rest[1..] == rest;
  }

  // What one more character does to it, and the end of the text.
  lemma Continues(line: string, text: string, separator: char)
    ensures Continued(line, Split(text, separator)) ==
      if text == [] then [line]
      else if text[0] == separator then [line] + Continued("", Split(text[1..], separator))
      else Continued(line + [text[0]], Split(text[1..], separator))
  {
    if text == [] {
      assert line + "" == line;
    } else {
      var rest := Split(text[1..], separator);
      if text[0] == separator {
        NothingBegun(rest);
        assert line + "" == line && ([""] + rest)[1..] == rest;
      } else {
        assert line + ([text[0]] + rest[0]) == line + [text[0]] + rest[0];
      }
    }
  }

  // readOptionsFile: a missing or empty file gives nothing. The character after the last one
  // is read too; in a file as large as the buffer that is whatever lies beyond the buffer.
  method ReadOptionsFile(file: Option<string>, beyond: char) returns (lines: Option<seq<string>>)
    ensures file.None? || file.value == "" ==> lines.None?
    ensures file.Some? && file.value != "" ==>
              lines == Some(Split(file.value[..Min(|file.value|, 1024)], '\n'))
  {
    if file.None? || file.value == "" {
      return None;
    }
    var buffer := file.value[..Min(|file.value|, MAX_FILE_SIZE)];
    var found, line, i := [], "", 0;
    NothingBegun(Split(buffer, '\n'));
    assert buffer[0..] == buffer;
    hide Split, Continued;
    while i <= |buffer|
      invariant 0 <= i <= |buffer| + 1
      invariant i <= |buffer| ==> found + Continued(line, Split(buffer[i..], '\n')) == Split(buffer, '\n')
      invariant i == |buffer| + 1 ==> found == Split(buffer, '\n')
    {
      Continues(line, buffer[i..], '\n');
      assert i < |buffer| ==> buffer[i..][1..] == buffer[i + 1..];
      var c := if i < |buffer| then buffer[i] else beyond;
      if c == '\n' || i == |buffer| {
        found := found + [line];
        line := "";
      } else {
        line := line + [c];
      }
      i := i + 1;
    }
    return Some(found);
  }

  // -------- Numbers --------

  function DigitsPrefix(text: string): (digits: string)
    ensures forall c :: c in digits ==> Decimal.IsDigit(c)
  {
    if text == [] || !Decimal.IsDigit(text[0]) then "" else [text[0]] + DigitsPrefix(text[1..])
  }

  predicate IsSpace(c: char) {
    c == ' ' || '\t' <= c <= '\r'
  }

  function Trimmed(text: string): string {
    if text != [] && IsSpace(text[0]) then Trimmed(text[1..]) else text
  }

  // atoi in C: blanks, a sign, and as many digits as there are
  function Atoi(text: string): int {
    var t := Trimmed(text);
    if t != [] && t[0] == '-' then 0 - (Decimal.Value(DigitsPrefix(t[1..])) as int)
    else if t != [] && t[0] == '+' then Decimal.Value(DigitsPrefix(t[1..]))
    else Decimal.Value(DigitsPrefix(t))
  }

  lemma {:induction false} AtoiOfDigits(text: string)
    requires forall c :: c in text ==> Decimal.IsDigit(c)
    ensures DigitsPrefix(text) == text && Atoi(text) == Decimal.Value(text)
  {
    if text != [] {
      AtoiOfDigits(text[1..]);
    }
  }

  lemma {:induction false} TrimmedIs(blanks: string, text: string)
    requires forall c :: c in blanks ==> c == ' ' || '\t' <= c <= '\r'
    requires text == [] || !(text[0] == ' ' || '\t' <= text[0] <= '\r')
    ensures Trimmed(blanks + text) == text
  {
    if blanks == [] {
      assert blanks + text == text;
    } else {
      assert (blanks + text)[1..] == blanks[1..] + text && blanks[0] in blanks;
      assert forall c :: c in blanks[1..] ==> c in blanks;
      TrimmedIs(blanks[1..], text);
    }
  }

  lemma {:induction false} DigitsPrefixIs(digits: string, rest: string)
    requires forall c :: c in digits ==> '0' <= c <= '9'
    requires rest == [] || !('0' <= rest[0] <= '9')
    ensures DigitsPrefix(digits + rest) == digits
  {
    if digits == [] {
      assert digits + rest == rest;
    } else {
      assert (digits + rest)[1..] == digits[1..] + rest && digits[0] in digits;
      assert forall c :: c in digits[1..] ==> c in digits;
      DigitsPrefixIs(digits[1..], rest);
    }
  }

  // What atoi makes of blanks, at most one sign, digits and whatever follows them, if that could
  // not have been read as one of the three.
  lemma AtoiReads(blanks: string, sign: string, digits: string, rest: string)
    requires forall c :: c in blanks ==> c == ' ' || '\t' <= c <= '\r'
    requires sign in ["", "+", "-"]
    requires forall c :: c in digits ==> '0' <= c <= '9'
    requires rest == [] || !('0' <= rest[0] <= '9')
    requires rest == [] || digits != [] || sign != "" || !(rest[0] in "+- " || '\t' <= rest[0] <= '\r')
    ensures Atoi(blanks + sign + digits + rest) == if sign == "-" then 0 - Decimal.Value(digits) else Decimal.Value(digits)
  {
    var text := sign + digits + rest;
    assert blanks + sign + digits + rest == blanks + text;
    assert text[|sign|..] == digits + rest;
    assert sign == "" ==> text == digits + rest;
    assert digits != [] ==> digits[0] in digits;
    assert sign == "" && digits == [] ==> text == rest;
    TrimmedIs(blanks, text);
    DigitsPrefixIs(digits, rest);
  }

  // A number without leading zeros.
  function Text(number: nat): (text: string)
    ensures text != [] && forall c :: c in text ==> Decimal.IsDigit(c)
  {
    (if number < 10 then [] else Text(number / 10)) + [Decimal.Digit(number % 10)]
  }

  lemma {:induction false} ValueOfText(number: nat)
    ensures Decimal.Value(Text(number)) == number
  {
    var text := Text(number);
    if number >= 10 {
      ValueOfText(number / 10);
      assert text[..|text| - 1] == Text(number / 10);
    } else {
      assert text[..0] == [];
    }
  }

  // -------- The key --------

  // The cast to a byte keeps the number modulo 256.
  function ByteOf(text: string): byte {
    Atoi(text) % 256
  }

  function Bytes(fields: seq<string>): seq<byte> {
    seq(|fields|, i requires 0 <= i < |fields| => ByteOf(fields[i]))
  }

  lemma FirstByte(field: string, fields: seq<string>)
    ensures Bytes([field]) == [ByteOf(field)]
    ensures Bytes([field] + fields) == [ByteOf(field)] + Bytes(fields)
  {
  }

  function Texts(key: seq<byte>): seq<string> {
    seq(|key|, i requires 0 <= i < |key| => Text(key[i]))
  }

  // What the option's line says: the numbers from behind the equals sign on.
  function ParsedSspk(line: string): seq<byte> {
    if |line| <= |SSPK_OPTION| then [] else Bytes(Split(line[|SSPK_OPTION| + 1..], ','))
  }

  // What is still to come of the numbers from index i on, when a field has been begun.
  function Remaining(field: string, line: string, i: nat): seq<byte> {
    if i <= |line| then Bytes(Continued(field, Split(line[i..], ','))) else []
  }

  lemma RemainingStep(field: string, line: string, i: nat)
    requires i <= |line|
    ensures Remaining("", line, |line| + 1) == []
    ensures Remaining(field, line, i) ==
      if i == |line| || line[i] == ',' then [ByteOf(field)] + Remaining("", line, i + 1)
      else Remaining(field + [line[i]], line, i + 1)
  {
    Continues(field, line[i..], ',');
    if i < |line| {
      assert line[i..][1..] == line[i + 1..];
      FirstByte(field, Continued("", Split(line[i + 1..], ',')));
    }
    hide ByteOf;
  }

  // The numbers so far and those to come are those of the text from the start on.
  predicate Parsing(nums: seq<byte>, field: string, line: string, i: nat, start: nat) {
    nums + Remaining(field, line, i) == Remaining("", line, start)
  }

  lemma ParsingStep(nums: seq<byte>, field: string, line: string, i: nat, start: nat)
    requires i <= |line| && Parsing(nums, field, line, i, start)
    ensures if i == |line| || line[i] == ',' then Parsing(nums + [ByteOf(field)], "", line, i + 1, start)
            else Parsing(nums, field + [line[i]], line, i + 1, start)
  {
    RemainingStep(field, line, i);
    hide Remaining, ByteOf;
    var rest := Remaining("", line, i + 1);
    assert nums + ([ByteOf(field)] + rest) == nums + [ByteOf(field)] + rest;
  }

  lemma ParsingBegins(line: string, start: nat)
    ensures Parsing([], "", line, start, start)
  {
    hide Remaining;
  }

  lemma ParsingEnds(nums: seq<byte>, line: string, start: nat)
    requires start <= |line| && Parsing(nums, "", line, |line| + 1, start)
    ensures nums == Bytes(Split(line[start..], ','))
  {
    NothingBegun(Split(line[start..], ','));
  }

  // the loop of parseSskpOption, when there is anything from its first index on
  method ParseFields(line: string, start: nat) returns (nums: seq<byte>)
    requires start <= |line|
    ensures nums == Bytes(Split(line[start..], ','))
  {
    hide Parsing, ByteOf, Bytes, Split;
    nums := [];
    var num, i := "", start;
    ParsingBegins(line, start);
    while i <= |line|
      invariant start <= i <= |line| + 1 && Parsing(nums, num, line, i, start)
      invariant i == |line| + 1 ==> num == ""
    {
      ParsingStep(nums, num, line, i, start);
      if i == |line| || line[i] == ',' {
        nums := nums + [ByteOf(num)];
        num := "";
      } else {
        num := num + [line[i]];
      }
      i := i + 1;
    }
    ParsingEnds(nums, line, start);
  }

  // parseSskpOption
  method ParseSspkOption(line: string) returns (nums: seq<byte>)
    ensures nums == ParsedSspk(line)
    ensures |line| <= 4 ==> nums == []
    ensures |line| > 4 ==>
      var fields := Split(line[5..], ',');
      |nums| == |fields| && forall i :: 0 <= i < |nums| ==> (Atoi(fields[i]) - nums[i]) % 256 == 0
  {
    hide Atoi, Split;
    nums := [];
    if |SSPK_OPTION| + 1 <= |line| {
      nums := ParseFields(line, |SSPK_OPTION| + 1);
    }
  }

  lemma TextsAreFields(key: seq<byte>)
    ensures Bytes(Texts(key)) == key
    ensures forall i :: 0 <= i < |key| ==> ',' !in Texts(key)[i]
  {
    hide Text, Atoi, Decimal.Value;
    forall i | 0 <= i < |key|
      ensures ',' !in Texts(key)[i] && ByteOf(Texts(key)[i]) == key[i]
    {
      ValueOfText(key[i]);
      AtoiOfDigits(Text(key[i]));
      assert !Decimal.IsDigit(',');
    }
  }

  // Writing the bytes of a key in decimal and parsing them gives the key back, exactly when there
  // are any: an empty list reads as one zero.
  lemma KeyRoundTrip(key: seq<byte>)
    ensures ParsedSspk(SSPK_OPTION + "=" + (if key == [] then "" else Join(Texts(key), ','))) == key <==> key != []
  {
    var payload := if key == [] then "" else Join(Texts(key), ',');
    var line := SSPK_OPTION + "=" + payload;
    hide Text, Atoi, Join, Split;
    assert line[|SSPK_OPTION| + 1..] == payload;
    if key == [] {
      assert |ParsedSspk(line)| == 1;
    } else {
      TextsAreFields(key);
      SplitJoin(Texts(key), ',');
    }
  }
}
