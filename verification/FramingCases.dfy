/**
 * What the Codex bridge reads from any stream (platform/codex_mcp_bridge.py), line by line: blank lines, an object on a
 * line, header lines in any order and case, and streams that break off.
 */
module FramingCases {
  import opened Wrappers
  import opened Text
  import opened Framing

  // ---- Lines ----

  /** White space in bytes: tab, the line breaks and feeds, and the blank. */
  predicate Space(b: byte) {
    b == 9 || b == 10 || b == 11 || b == 12 || b == 13 || b == 32
  }

  predicate OnlySpace(line: Bytes) {
    forall i :: 0 <= i < |line| ==> Space(line[i])
  }

  /** A line with its line break. */
  predicate IsLine(line: Bytes) {
    line != [] && line[|line| - 1] == 10 && forall i :: 0 <= i < |line| - 1 ==> line[i] != 10
  }

  /** Behind white space, the line opens an object. */
  predicate StartsObject(line: Bytes) {
    exists n :: 0 <= n < |line| && OnlySpace(line[..n]) && line[n] == 123
  }

  lemma BlankIff(line: Bytes)
    ensures Blank(line) <==> OnlySpace(line)
  {
  }

  lemma {:induction false} OpensBraceIff(line: Bytes)
    ensures OpensBrace(line) <==> StartsObject(line)
  {
    if line != [] {
      OpensBraceIff(line[1..]);
      if IsSpaceByte(line[0]) {
        if n :| 0 <= n < |line[1..]| && OnlySpace(line[1..][..n]) && line[1..][n] == 123 {
          assert line[..n + 1] == [line[0]] + line[1..][..n];
          assert line[n + 1] == 123;
        }
        if n :| 0 <= n < |line| && OnlySpace(line[..n]) && line[n] == 123 {
          assert line[1..][..n - 1] == line[..n][1..];
          assert line[1..][n - 1] == 123;
        }
      } else {
        assert line[..0] == [];
        forall n | 0 < n < |line| ensures !OnlySpace(line[..n]) {
          assert line[..n][0] == line[0];
        }
      }
    }
  }

  /** A line in front of anything is what `readline` reads. */
  lemma LineInFront(line: Bytes, rest: Bytes)
    requires IsLine(line)
    ensures LineLength(line + rest) == |line| && (line + rest)[..|line|] == line && (line + rest)[|line|..] == rest
  {
    var p := line[..|line| - 1];
    assert line == p + [LF];
    assert LF !in p;
    LineEndsAtLf(p, rest);
    assert line + rest == p + [LF] + rest;
  }

  /** The bytes of lines, one after the other. */
  function Joined(lines: seq<Bytes>): Bytes {
    if lines == [] then [] else lines[0] + Joined(lines[1..])
  }

  predicate AreLines(lines: seq<Bytes>) {
    forall i :: 0 <= i < |lines| ==> IsLine(lines[i])
  }

  predicate BlankLines(lines: seq<Bytes>) {
    AreLines(lines) && forall i :: 0 <= i < |lines| ==> OnlySpace(lines[i])
  }

  predicate HeaderLines(lines: seq<Bytes>) {
    AreLines(lines) && forall i :: 0 <= i < |lines| ==> !OnlySpace(lines[i])
  }

  lemma {:induction false} BlankLinesSkipped(blanks: seq<Bytes>, rest: Bytes)
    requires BlankLines(blanks)
    ensures SkipBlank(Joined(blanks) + rest) == SkipBlank(rest)
  {
    if blanks == [] {
      assert Joined(blanks) + rest == rest;
    } else {
      var more := Joined(blanks[1..]) + rest;
      assert Joined(blanks) + rest == blanks[0] + more;
      LineInFront(blanks[0], more);
      BlankIff(blanks[0]);
      BlankLinesSkipped(blanks[1..], rest);
    }
  }

  // ---- Header fields ----

  /** White space in texts: the ASCII blanks that `str.strip` removes. */
  predicate SpaceChar(c: char) {
    c == ' ' || c as int in {9, 10, 11, 12, 13, 28, 29, 30, 31}
  }

  predicate Padding(s: string) {
    forall i :: 0 <= i < |s| ==> SpaceChar(s[i])
  }

  /** A text without white space at its ends. */
  predicate Trimmed(s: string) {
    s != "" ==> !SpaceChar(s[0]) && !SpaceChar(s[|s| - 1])
  }

  lemma {:induction false} StripLeftOf(pad: string, s: string)
    requires Padding(pad) && (s != "" ==> !SpaceChar(s[0]))
    ensures StripLeft(pad + s) == s
  {
    if pad == "" {
      assert pad + s == s;
    } else {
      assert (pad + s)[1..] == pad[1..] + s;
      StripLeftOf(pad[1..], s);
    }
  }

  lemma {:induction false} StripRightOf(s: string, pad: string)
    requires Padding(pad) && (s != "" ==> !SpaceChar(s[|s| - 1]))
    ensures StripRight(s + pad) == s
  {
    if pad == "" {
      assert s + pad == s;
    } else {
      var t := s + pad;
      assert t[..|t| - 1] == s + pad[..|pad| - 1];
      StripRightOf(s, pad[..|pad| - 1]);
    }
  }

  /** Stripping removes all white space at both ends, and nothing else. */
  lemma StripOf(before: string, core: string, after: string)
    requires Padding(before) && Padding(after) && Trimmed(core)
    ensures Strip(before + core + after) == core
  {
    if core == "" {
      assert before + core + after == before + after + "";
      assert Padding(before + after);
      StripLeftOf(before + after, "");
      StripRightOf("", "");
      assert "" + "" == "";
      assert (before + after) + "" == before + core + after;
    } else {
      assert before + core + after == before + (core + after);
      StripLeftOf(before, core + after);
      StripRightOf(core, after);
    }
  }

  /** The line holds a header field, with white space around its key and its value. */
  predicate FieldLine(line: Bytes, key: string, value: string, a: string, b: string, c: string, d: string) {
    && Decode(line) == a + key + b + ":" + (c + value + d) && ':' !in key && Padding(a) && Padding(b) && Padding(c) && Padding(d)
    && Trimmed(key) && Trimmed(value)
  }

  lemma NoColon(s: string)
    requires Padding(s)
    ensures ':' !in s
  {
  }

  /** The key is read in lower case, the value as it is, both without the white space around them. */
  lemma FieldRead(line: Bytes, key: string, value: string, a: string, b: string, c: string, d: string)
    requires FieldLine(line, key, value, a, b, c, d)
    ensures HeaderKey(line) == Lower(key) && HeaderValue(line) == value
  {
    hide Strip, Lower, Decode, KeyLength;
    var text := Decode(line);
    NoColon(a);
    NoColon(b);
    KeyEndsAtColon(a + key + b, c + value + d);
    assert text[..|a + key + b|] == a + key + b;
    assert text[|a + key + b| + 1..] == c + value + d;
    StripOf(a, key, b);
    StripOf(c, value, d);
  }

  /** What the last of the content lengths says; without one, "0". */
  predicate LengthFrom(lines: seq<Bytes>, length: string) {
    if forall i :: 0 <= i < |lines| ==> HeaderKey(lines[i]) != "content-length" then length == "0"
    else exists i :: 0 <= i < |lines| && HeaderKey(lines[i]) == "content-length" && HeaderValue(lines[i]) == length
                     && forall j :: i < j < |lines| ==> HeaderKey(lines[j]) != "content-length"
  }

  /** The content length after the lines, if it was `before` in front of them. */
  function LastLength(lines: seq<Bytes>, before: string): string {
    if lines == [] then before
    else LastLength(lines[1..], if HeaderKey(lines[0]) == "content-length" then HeaderValue(lines[0]) else before)
  }

  lemma {:induction false} LastLengthIs(lines: seq<Bytes>, before: string)
    ensures (forall i :: 0 <= i < |lines| ==> HeaderKey(lines[i]) != "content-length") ==> LastLength(lines, before) == before
    ensures !(forall i :: 0 <= i < |lines| ==> HeaderKey(lines[i]) != "content-length") ==>
              exists i :: 0 <= i < |lines| && HeaderKey(lines[i]) == "content-length" && HeaderValue(lines[i]) == LastLength(lines, before)
                          && forall j :: i < j < |lines| ==> HeaderKey(lines[j]) != "content-length"
  {
    hide HeaderKey, HeaderValue;
    if lines != [] {
      var next := if HeaderKey(lines[0]) == "content-length" then HeaderValue(lines[0]) else before;
      LastLengthIs(lines[1..], next);
      assert forall i :: 1 <= i < |lines| ==> lines[i] == lines[1..][i - 1];
      if i :| 0 <= i < |lines[1..]| && HeaderKey(lines[1..][i]) == "content-length"
              && HeaderValue(lines[1..][i]) == LastLength(lines[1..], next)
              && forall j :: i < j < |lines[1..]| ==> HeaderKey(lines[1..][j]) != "content-length" {
        assert lines[i + 1] == lines[1..][i];
      } else {
        assert forall i :: 0 <= i < |lines[1..]| ==> HeaderKey(lines[1..][i]) != "content-length";
      }
    }
  }

  lemma {:induction false} HeadersRead(lines: seq<Bytes>, end: Bytes, rest: Bytes, before: string)
    requires HeaderLines(lines) && IsLine(end) && OnlySpace(end)
    ensures ReadHeaders(Joined(lines) + (end + rest), before) == Headers(true, LastLength(lines, before), rest)
  {
    hide HeaderKey, HeaderValue;
    if lines == [] {
      assert Joined(lines) + (end + rest) == end + rest;
      LineInFront(end, rest);
      BlankIff(end);
    } else {
      var more := Joined(lines[1..]) + (end + rest);
      assert Joined(lines) + (end + rest) == lines[0] + more;
      LineInFront(lines[0], more);
      BlankIff(lines[0]);
      HeadersRead(lines[1..], end, rest, if HeaderKey(lines[0]) == "content-length" then HeaderValue(lines[0]) else before);
    }
  }

  lemma {:induction false} HeadersBreakOff(lines: seq<Bytes>, before: string)
    requires HeaderLines(lines)
    ensures !ReadHeaders(Joined(lines), before).complete
  {
    hide HeaderKey, HeaderValue;
    if lines != [] {
      LineInFront(lines[0], Joined(lines[1..]));
      BlankIff(lines[0]);
      HeadersBreakOff(lines[1..], if HeaderKey(lines[0]) == "content-length" then HeaderValue(lines[0]) else before);
    }
  }

  // ---- Messages ----

  /** What follows the empty line is read by its length: as many bytes, or all that are left. */
  predicate ContentRead<M(==)>(loads: Bytes -> Option<M>, length: string, rest: Bytes, r: ReadResult<M>, left: Bytes) {
    match ParseInt(length)
    case None => r == Failure("invalid literal for int()") && left == rest
    case Some(n) =>
      if n <= 0 then r == Failure("missing Content-Length") && left == rest
      else
        var content := if n <= |rest| then rest[..n] else rest;
        left == rest[|content|..] && r == match loads(content) case Some(m) => Message(m) case None => Failure("invalid JSON")
  }

  /**
   * Blank lines, then a line that opens an object: that line is the message, whatever white space stands in front of its
   * brace, and the rest of the stream is left.
   */
  lemma ObjectLineRead<M>(loads: Bytes -> Option<M>, blanks: seq<Bytes>, line: Bytes, rest: Bytes)
    requires BlankLines(blanks) && IsLine(line) && StartsObject(line)
    ensures ReadMessageSpec(loads, Joined(blanks) + (line + rest))
         == (match loads(line) case Some(m) => Message(m) case None => Failure("invalid JSON"), rest)
  {
    hide OpensBrace;
    BlankLinesSkipped(blanks, line + rest);
    NotBlank(line);
    LineInFront(line, rest);
    OpensBraceIff(line);
  }

  lemma NotBlank(line: Bytes)
    requires StartsObject(line)
    ensures !Blank(line)
  {
    var n :| 0 <= n < |line| && OnlySpace(line[..n]) && line[n] == 123;
  }

  /** The content length is the last one of the lines, and the content is read by it. */
  ghost predicate BlockRead<M>(loads: Bytes -> Option<M>, lines: seq<Bytes>, rest: Bytes, result: (ReadResult<M>, Bytes)) {
    exists length :: LengthFrom(lines, length) && ContentRead(loads, length, rest, result.0, result.1)
  }

  /**
   * Blank lines, then header lines of any kind, then an empty line: the last content length counts, in any case of
   * letters, and says how much of the rest is the message.
   */
  lemma HeaderBlockRead<M>(loads: Bytes -> Option<M>, blanks: seq<Bytes>, lines: seq<Bytes>, end: Bytes, rest: Bytes)
    requires BlankLines(blanks) && HeaderLines(lines) && lines != [] && !StartsObject(lines[0]) && IsLine(end) && OnlySpace(end)
    ensures BlockRead(loads, lines, rest, ReadMessageSpec(loads, Joined(blanks) + (Joined(lines) + (end + rest))))
  {
    hide ReadMessageSpec, BlockRead, ReadHeaders, LengthFrom, LineLength, LastLength, SkipBlank, Joined, OpensBrace, HeaderLines,
         StartsObject;
    var input := Joined(lines) + (end + rest);
    BlankLinesSkipped(blanks, input);
    BlockStarts(lines, end + rest);
    HeadersRead(lines, end, rest, "0");
    LastLengthFrom(lines);
    BlockReadBy(loads, blanks, lines, input, rest);
  }

  /** A block of header lines starts with neither a blank line nor an object. */
  lemma BlockStarts(lines: seq<Bytes>, rest: Bytes)
    requires HeaderLines(lines) && lines != [] && !StartsObject(lines[0])
    ensures var input := Joined(lines) + rest;
      input != [] && SkipBlank(input) == input && !OpensBrace(input[..LineLength(input)])
  {
    hide OpensBrace, LineLength, StartsObject;
    var more := Joined(lines[1..]) + rest;
    assert Joined(lines) + rest == lines[0] + more;
    LineInFront(lines[0], more);
    BlankIff(lines[0]);
    OpensBraceIff(lines[0]);
  }

  lemma LastLengthFrom(lines: seq<Bytes>)
    ensures LengthFrom(lines, LastLength(lines, "0"))
  {
    hide HeaderKey, HeaderValue, LastLength;
    LastLengthIs(lines, "0");
  }

  /** The last line of a stream may lack its line break. */
  lemma LastObjectRead<M>(loads: Bytes -> Option<M>, blanks: seq<Bytes>, line: Bytes)
    requires BlankLines(blanks) && StartsObject(line) && LF !in line
    ensures ReadMessageSpec(loads, Joined(blanks) + line)
         == (match loads(line) case Some(m) => Message(m) case None => Failure("invalid JSON"), [])
  {
    hide OpensBrace;
    BlankLinesSkipped(blanks, line);
    NotBlank(line);
    WholeLine(line);
    OpensBraceIff(line);
    assert line[..|line|] == line;
  }

  lemma {:induction false} WholeLine(line: Bytes)
    requires LF !in line
    ensures LineLength(line) == |line|
  {
    if line != [] {
      WholeLine(line[1..]);
    }
  }

  /** From the headers on, the length decides. */
  lemma BlockReadBy<M>(loads: Bytes -> Option<M>, blanks: seq<Bytes>, lines: seq<Bytes>, input: Bytes, rest: Bytes)
    requires SkipBlank(Joined(blanks) + input) == input != [] && !OpensBrace(input[..LineLength(input)])
    requires ReadHeaders(input, "0") == Headers(true, LastLength(lines, "0"), rest)
    requires LengthFrom(lines, LastLength(lines, "0"))
    ensures BlockRead(loads, lines, rest, ReadMessageSpec(loads, Joined(blanks) + input))
  {
    hide OpensBrace, ParseInt, ReadHeaders, LengthFrom, LineLength, LastLength, SkipBlank;
    var (r, left) := ReadMessageSpec(loads, Joined(blanks) + input);
    assert ContentRead(loads, LastLength(lines, "0"), rest, r, left);
  }

  /** A stream that ends among blank lines, or before the empty line of a header block, is at its end. */
  lemma BrokenOff<M>(loads: Bytes -> Option<M>, blanks: seq<Bytes>, lines: seq<Bytes>)
    requires BlankLines(blanks) && HeaderLines(lines) && (lines != [] ==> !StartsObject(lines[0]))
    ensures ReadMessageSpec(loads, Joined(blanks) + Joined(lines)) == (Eof, [])
  {
    hide OpensBrace, HeaderKey, HeaderValue, ParseInt, ReadHeaders;
    BlankLinesSkipped(blanks, Joined(lines));
    if lines != [] {
      LineInFront(lines[0], Joined(lines[1..]));
      BlankIff(lines[0]);
      OpensBraceIff(lines[0]);
      HeadersBreakOff(lines, "0");
    }
  }

  // ---- Lengths ----

  predicate AllDigits(s: string) {
    s != "" && forall i :: 0 <= i < |s| ==> '0' <= s[i] <= '9'
  }

  lemma DigitsParse(s: string)
    requires AllDigits(s)
    ensures IsNumeral(s) && Digits(s) == s && !SpaceChar(s[0]) && !SpaceChar(s[|s| - 1]) && s[0] != '-' && s[0] != '+'
  {
    assert forall c :: c in s ==> IsDigit(c);
    DigitsAreNumeral(s);
  }

  /** Digits, with or without a sign and white space around them, are read as their number. */
  lemma SignedRead(before: string, digits: string, after: string)
    requires Padding(before) && Padding(after) && AllDigits(digits)
    ensures ParseInt(before + digits + after) == ParseInt(before + ("+" + digits) + after) == Some(DigitsValue(digits))
    ensures ParseInt(before + ("-" + digits) + after) == Some(-(DigitsValue(digits) as int))
  {
    hide Strip, IsNumeral, Digits, DigitsValue;
    DigitsParse(digits);
    StripOf(before, digits, after);
    StripOf(before, "+" + digits, after);
    StripOf(before, "-" + digits, after);
    assert ("+" + digits)[1..] == digits && ("-" + digits)[1..] == digits;
  }

  lemma {:induction false} UnderscoreIsNumeral(a: string, b: string)
    requires AllDigits(a) && IsNumeral(b)
    ensures IsNumeral(a + "_" + b)
  {
    var s := a + "_" + b;
    if |a| == 1 {
      assert s[2..] == b;
    } else {
      assert s[1..] == a[1..] + "_" + b;
      UnderscoreIsNumeral(a[1..], b);
    }
  }

  lemma {:induction false} DigitsOfJoined(a: string, b: string)
    ensures Digits(a + b) == Digits(a) + Digits(b)
  {
    if a == "" {
      assert a + b == b;
    } else {
      assert (a + b)[1..] == a[1..] + b;
      DigitsOfJoined(a[1..], b);
    }
  }

  lemma UnderscoreJoins(a: string, b: string)
    requires AllDigits(a) && AllDigits(b)
    ensures IsNumeral(a + "_" + b) && Digits(a + "_" + b) == a + b
  {
    hide IsNumeral, AllDigits, Digits;
    DigitsParse(a);
    DigitsParse(b);
    UnderscoreIsNumeral(a, b);
    DigitsOfJoined(a + "_", b);
    DigitsOfJoined(a, "_");
    NoDigits();
    assert (a + "_") + b == a + "_" + b;
  }

  lemma NoDigits()
    ensures Digits("_") == ""
  {
  }

  /** A single underscore between digits is skipped. */
  lemma UnderscoreRead(a: string, b: string)
    requires AllDigits(a) && AllDigits(b)
    ensures ParseInt(a + "_" + b) == Some(DigitsValue(a + b))
  {
    hide Strip, IsNumeral, Digits, DigitsValue;
    UnderscoreJoins(a, b);
    DigitsParse(a);
    DigitsParse(b);
    assert "" + (a + "_" + b) + "" == a + "_" + b;
    StripOf("", a + "_" + b, "");
  }

  /** A text with anything but digits, underscores, a sign and white space is no length. */
  lemma LettersAreNoLength(before: string, core: string, after: string, i: nat)
    requires Padding(before) && Padding(after) && Trimmed(core) && i < |core|
    requires !('0' <= core[i] <= '9') && core[i] != '_' && (i == 0 ==> core[i] != '-' && core[i] != '+')
    ensures ParseInt(before + core + after) == None
  {
    hide Strip, Digits, DigitsValue;
    StripOf(before, core, after);
    NumeralsHaveDigits(core, i);
    if i > 0 {
      assert core[1..][i - 1] == core[i];
      NumeralsHaveDigits(core[1..], i - 1);
    }
  }

  lemma {:induction false} NumeralsHaveDigits(s: string, i: nat)
    requires i < |s| && !('0' <= s[i] <= '9') && s[i] != '_'
    ensures !IsNumeral(s)
  {
    if IsNumeral(s) {
      if i == 0 {
      } else if s[1] == '_' {
        if i >= 2 {
          assert s[2..][i - 2] == s[i];
          NumeralsHaveDigits(s[2..], i - 2);
        }
      } else {
        assert s[1..][i - 1] == s[i];
        NumeralsHaveDigits(s[1..], i - 1);
      }
    }
  }
}
