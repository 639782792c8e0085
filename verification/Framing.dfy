/**
 * Message framing of the Codex bridge (platform/codex_mcp_bridge.py): the header part of the Language Server
 * Protocol 3.17 (Base Protocol), or one JSON object per line.
 */
module Framing {
  import opened Text
  import opened Wrappers

  newtype byte = b: int | 0 <= b < 256

  type Bytes = seq<byte>

  const LF: byte := 10
  const BRACE: byte := 123

  /** The ASCII encoding of a text. */
  function Ascii(s: string): (r: Bytes)
    requires forall c :: c in s ==> c as int < 128
    ensures |r| == |s|
  {
    seq(|s|, i requires 0 <= i < |s| => assert s[i] in s; s[i] as int as byte)
  }

  /** Decoding of header text, one character per byte. */
  function Decode(bytes: Bytes): (r: string)
    ensures |r| == |bytes|
  {
    seq(|bytes|, i requires 0 <= i < |bytes| => bytes[i] as int as char)
  }

  // ---- White space ----

  predicate IsSpaceByte(b: byte) {
    b == 32 || 9 <= b <= 13
  }

  /** `not line.strip()` */
  predicate Blank(line: Bytes) {
    forall i :: 0 <= i < |line| ==> IsSpaceByte(line[i])
  }

  /** `line.lstrip().startswith(b"{")` */
  predicate OpensBrace(line: Bytes) {
    line != [] && if IsSpaceByte(line[0]) then OpensBrace(line[1..]) else line[0] == BRACE
  }

  predicate IsSpaceChar(c: char) {
    c == ' ' || 9 <= c as int <= 13 || 28 <= c as int <= 31
  }

  function StripLeft(s: string): string {
    if s != "" && IsSpaceChar(s[0]) then StripLeft(s[1..]) else s
  }

  function StripRight(s: string): string {
    if s != "" && IsSpaceChar(s[|s| - 1]) then StripRight(s[..|s| - 1]) else s
  }

  function Strip(s: string): string {
    StripRight(StripLeft(s))
  }

  // ---- Lines ----

  /** The number of bytes that `readline` consumes. */
  function LineLength(input: Bytes): (n: nat)
    ensures n <= |input|
    ensures input != [] ==> n > 0
  {
    if input == [] then 0 else if input[0] == LF then 1 else 1 + LineLength(input[1..])
  }

  lemma {:induction false} LineEndsAtLf(p: Bytes, rest: Bytes)
    requires LF !in p
    ensures LineLength(p + [LF] + rest) == |p| + 1
  {
    var input := p + [LF] + rest;
    if p != [] {
      assert input[1..] == p[1..] + [LF] + rest;
      LineEndsAtLf(p[1..], rest);
    }
  }

  // ---- Headers ----

  /** `str.partition(":")` without the separator: everything is the key when there is no colon. */
  function KeyLength(s: string): (n: nat)
    ensures n <= |s|
    ensures n < |s| ==> s[n] == ':'
    ensures forall i :: 0 <= i < n ==> s[i] != ':'
  {
    if s == "" || s[0] == ':' then 0 else 1 + KeyLength(s[1..])
  }

  function HeaderKey(line: Bytes): string {
    var text := Decode(line);
    Lower(Strip(text[..KeyLength(text)]))
  }

  function HeaderValue(line: Bytes): string {
    var text := Decode(line);
    var n := KeyLength(text);
    if n < |text| then Strip(text[n + 1..]) else ""
  }

  /** Digits with single underscores between them, as `int()` accepts. */
  predicate IsNumeral(s: string) {
    s != "" && IsDigit(s[0]) && (|s| == 1 || (if s[1] == '_' then IsNumeral(s[2..]) else IsNumeral(s[1..])))
  }

  function Digits(s: string): (r: string)
    ensures forall c :: c in r ==> IsDigit(c)
  {
    if s == "" then "" else (if IsDigit(s[0]) then [s[0]] else "") + Digits(s[1..])
  }

  /** `int(text)`; `None` is the `ValueError`. */
  function ParseInt(text: string): Option<int> {
    var s := Strip(text);
    if s != "" && s[0] == '-' then
      (if IsNumeral(s[1..]) then Some(-(DigitsValue(Digits(s[1..])) as int)) else None)
    else
      var t := if s != "" && s[0] == '+' then s[1..] else s;
      if IsNumeral(t) then Some(DigitsValue(Digits(t))) else None
  }

  // ---- Reading ----

  datatype ReadResult<+M> = Eof | Message(m: M) | Failure(error: string)

  /** Input after the blank lines that `_read_message` skips. */
  function SkipBlank(input: Bytes): (rest: Bytes)
    ensures |rest| <= |input|
    ensures rest != [] ==> !Blank(rest[..LineLength(rest)])
    decreases |input|
  {
    var n := LineLength(input);
    if input == [] || !Blank(input[..n]) then input else SkipBlank(input[n..])
  }

  datatype Headers = Headers(complete: bool, contentLength: string, rest: Bytes)

  /** The header lines from `input` to the blank line; the last `content-length` counts. */
  function ReadHeaders(input: Bytes, contentLength: string): (h: Headers)
    decreases |input|
  {
    var n := LineLength(input);
    if input == [] then Headers(false, contentLength, [])
    else if Blank(input[..n]) then Headers(true, contentLength, input[n..])
    else
      ReadHeaders(input[n..], if HeaderKey(input[..n]) == "content-length" then HeaderValue(input[..n]) else contentLength)
  }

  function Loaded<M>(loads: Bytes -> Option<M>, text: Bytes): ReadResult<M> {
    match loads(text)
    case Some(m) => Message(m)
    case None => Failure("invalid JSON")
  }

  /** `_read_message`: its result, and what it leaves in the stream. */
  function ReadMessageSpec<M>(loads: Bytes -> Option<M>, input: Bytes): (ReadResult<M>, Bytes) {
    var start := SkipBlank(input);
    var n := LineLength(start);
    if start == [] then (Eof, [])
    else if OpensBrace(start[..n]) then (Loaded(loads, start[..n]), start[n..])
    else
      var h := ReadHeaders(start, "0");
      if !h.complete then (Eof, [])
      else match ParseInt(h.contentLength)
        case None => (Failure("invalid literal for int()"), h.rest)
        case Some(length) =>
          if length <= 0 then (Failure("missing Content-Length"), h.rest)
          else if length <= |h.rest| then (Loaded(loads, h.rest[..length]), h.rest[length..])
          else (Loaded(loads, h.rest), [])
  }

  /** A buffered input stream. */
  class InputStream {
    var rest: Bytes

    constructor (bytes: Bytes)
      ensures rest == bytes
    {
      rest := bytes;
    }

    /** `stream.readline()` */
    method ReadLine() returns (line: Bytes)
      modifies this
      ensures line == old(rest)[..LineLength(old(rest))]
      ensures rest == old(rest)[LineLength(old(rest))..]
    {
      var n := 0;
      while n < |rest| && rest[n] != LF
        invariant 0 <= n <= |rest| && rest == old(rest)
        invariant LineLength(rest) == n + LineLength(rest[n..])
      {
        assert rest[n..][1..] == rest[n + 1..];
        n := n + 1;
      }
      if n < |rest| {
        n := n + 1;
      }
      line := rest[..n];
      rest := rest[n..];
    }

    /** `stream.read(length)`: fewer bytes at the end of the stream. */
    method Read(length: nat) returns (data: Bytes)
      modifies this
      ensures length <= |old(rest)| ==> data == old(rest)[..length] && rest == old(rest)[length..]
      ensures length > |old(rest)| ==> data == old(rest) && rest == []
    {
      var n := if length <= |rest| then length else |rest|;
      data := rest[..n];
      rest := rest[n..];
    }
  }

  /** The loop over header lines, which starts with the line already read; `None` at the end of the stream. */
  method ReadContentLength(stream: InputStream, first: Bytes) returns (contentLength: Option<string>)
    requires first != [] && !Blank(first) && first == (first + stream.rest)[..LineLength(first + stream.rest)]
    modifies stream
    ensures var h := ReadHeaders(first + old(stream.rest), "0");
      && (contentLength.Some? <==> h.complete)
      && (contentLength.Some? ==> contentLength.value == h.contentLength && stream.rest == h.rest)
      && (contentLength.None? ==> stream.rest == [])
  {
    hide HeaderKey, HeaderValue, Blank;
    ghost var start := first + stream.rest;
    var length := "0";
    var line := first;
    while !Blank(line)
      invariant line + stream.rest != []
      invariant line == (line + stream.rest)[..LineLength(line + stream.rest)]
      invariant ReadHeaders(line + stream.rest, length) == ReadHeaders(start, "0")
      decreases |line| + |stream.rest|
    {
      ghost var whole := line + stream.rest;
      assert whole[LineLength(whole)..] == stream.rest;
      if HeaderKey(line) == "content-length" {
        length := HeaderValue(line);
      }
      line := stream.ReadLine();
      assert line + stream.rest == whole[LineLength(whole)..];
      if line == [] {
        return None;
      }
    }

    ghost var last := line + stream.rest;
    assert last[LineLength(last)..] == stream.rest;
    contentLength := Some(length);
  }

  /** The first line that is not blank, or nothing at the end of the stream. */
  method SkipBlankLines(stream: InputStream) returns (first: Bytes)
    modifies stream
    ensures first + stream.rest == SkipBlank(old(stream.rest))
    ensures first == SkipBlank(old(stream.rest))[..LineLength(SkipBlank(old(stream.rest)))]
    ensures stream.rest == SkipBlank(old(stream.rest))[LineLength(SkipBlank(old(stream.rest)))..]
  {
    hide Blank;
    first := stream.ReadLine();
    assert first + stream.rest == old(stream.rest);
    while first != [] && Blank(first)
      invariant SkipBlank(first + stream.rest) == SkipBlank(old(stream.rest))
      invariant first == (first + stream.rest)[..LineLength(first + stream.rest)]
      decreases |first| + |stream.rest|
    {
      ghost var whole := first + stream.rest;
      assert whole[LineLength(whole)..] == stream.rest;
      first := stream.ReadLine();
      assert first + stream.rest == whole[LineLength(whole)..];
    }

    ghost var start := first + stream.rest;
    assert SkipBlank(start) == start;
    assert start[LineLength(start)..] == stream.rest;
  }

  /** `_read_message` */
  method ReadMessage<M>(stream: InputStream, loads: Bytes -> Option<M>) returns (r: ReadResult<M>)
    modifies stream
    ensures (r, stream.rest) == ReadMessageSpec(loads, old(stream.rest))
  {
    hide HeaderKey, HeaderValue, OpensBrace, Blank, ParseInt, ReadHeaders, SkipBlank;
    var first := SkipBlankLines(stream);
    if first == [] {
      return Eof;
    }
    if OpensBrace(first) {
      var loaded := loads(first);
      return if loaded.Some? then Message(loaded.value) else Failure("invalid JSON");
    }
    var contentLength := ReadContentLength(stream, first);
    if contentLength.None? {
      return Eof;
    }
    var length := ParseInt(contentLength.value);
    if length.None? {
      return Failure("invalid literal for int()");
    }
    if length.value <= 0 {
      return Failure("missing Content-Length");
    }
    var data := stream.Read(length.value);
    var loaded := loads(data);
    r := if loaded.Some? then Message(loaded.value) else Failure("invalid JSON");
  }

  // ---- Writing ----

  /** The header part and the content part of one message. */
  function Frame(payload: Bytes): Bytes {
    Ascii("Content-Length: ") + Ascii(Decimal(|payload|)) + Ascii("\r\n\r\n") + payload
  }

  class OutputStream {
    var written: Bytes

    constructor ()
      ensures written == []
    {
      written := [];
    }

    method Write(bytes: Bytes)
      modifies this
      ensures written == old(written) + bytes
    {
      written := written + bytes;
    }
  }

  /** `_write_message` */
  method WriteMessage<M>(out: OutputStream, dumps: M -> Bytes, message: M)
    modifies out
    ensures out.written == old(out.written) + Frame(dumps(message))
  {
    var payload := dumps(message);
    out.Write(Ascii("Content-Length: ") + Ascii(Decimal(|payload|)) + Ascii("\r\n\r\n"));
    out.Write(payload);
  }

  // ---- Round trip ----

  /** What the round trip asks of JSON text: one object, on one line, that parses back, with or without its newline. */
  ghost predicate JsonCodec<M(!new)>(dumps: M -> Bytes, loads: Bytes -> Option<M>) {
    forall m :: dumps(m) != [] && dumps(m)[0] == BRACE && LF !in dumps(m)
                && loads(dumps(m)) == Some(m) && loads(dumps(m) + [LF]) == Some(m)
  }

  datatype Sent<M> = Framed(m: M) | Line(m: M)

  function Encode<M>(dumps: M -> Bytes, s: Sent<M>): Bytes {
    match s
    case Framed(m) => Frame(dumps(m))
    case Line(m) => dumps(m) + [LF]
  }

  function EncodeAll<M>(dumps: M -> Bytes, sent: seq<Sent<M>>): Bytes {
    if sent == [] then [] else Encode(dumps, sent[0]) + EncodeAll(dumps, sent[1..])
  }

  /** The results of `n` successive reads, and the input left over. */
  function ReadMany<M>(loads: Bytes -> Option<M>, input: Bytes, n: nat): (seq<ReadResult<M>>, Bytes)
    decreases n
  {
    if n == 0 then ([], input)
    else
      var (r, rest) := ReadMessageSpec(loads, input);
      var (rs, end) := ReadMany(loads, rest, n - 1);
      ([r] + rs, end)
  }

  /** A line of JSON is read back, whatever follows it. */
  lemma LineReadsBack<M(!new)>(dumps: M -> Bytes, loads: Bytes -> Option<M>, m: M, tail: Bytes)
    requires JsonCodec(dumps, loads)
    ensures ReadMessageSpec(loads, dumps(m) + [LF] + tail) == (Message(m), tail)
  {
    var input := dumps(m) + [LF] + tail;
    LineEndsAtLf(dumps(m), tail);
    var line := input[..LineLength(input)];
    assert line == dumps(m) + [LF];
    assert line[0] == BRACE;
    assert input[LineLength(input)..] == tail;
    assert SkipBlank(input) == input;
  }

  /** Stripping removes one leading blank and a trailing line break around a text that has no white space. */
  lemma StripTrims(core: string)
    requires core != "" && forall c :: c in core ==> !IsSpaceChar(c)
    ensures Strip(core) == core
    ensures Strip(" " + core + "\r\n") == core
  {
    var t := core + "\r\n";
    assert core[0] in core && core[|core| - 1] in core;
    var s := " " + core + "\r\n";
    assert s[1..] == t;
    assert StripLeft(s) == t;
    assert t[..|t| - 1] == core + "\r";
    assert (core + "\r")[..|core|] == core;
    assert StripRight(core) == core;
    assert StripRight(core + "\r") == core;
  }

  lemma {:induction false} DigitsAreNumeral(s: string)
    requires s != "" && forall c :: c in s ==> IsDigit(c)
    ensures IsNumeral(s) && Digits(s) == s
  {
    assert s[0] in s;
    if |s| > 1 {
      assert s[1] in s;
      DigitsAreNumeral(s[1..]);
      assert s == [s[0]] + s[1..];
    } else {
      assert Digits(s[1..]) == "";
    }
  }

  /** `int(str(n)) == n`, also with the white space that a header value carries. */
  lemma ParseIntReadsDecimal(n: nat)
    ensures ParseInt(Decimal(n)) == Some(n)
    ensures Strip(" " + Decimal(n) + "\r\n") == Decimal(n)
  {
    var d := Decimal(n);
    assert forall c :: c in d ==> IsDigit(c) && !IsSpaceChar(c);
    StripTrims(d);
    assert d[0] in d;
    DigitsAreNumeral(d);
    DecimalRoundTrip(n);
  }

  lemma {:induction false} KeyEndsAtColon(key: string, rest: string)
    requires ':' !in key
    ensures KeyLength(key + ":" + rest) == |key|
  {
    var s := key + ":" + rest;
    if key != "" {
      assert s[1..] == key[1..] + ":" + rest;
      KeyEndsAtColon(key[1..], rest);
    }
  }

  /** The text of the header line that `Frame` writes, cut at its colon. */
  lemma LengthText(n: nat)
    ensures var line := Ascii("Content-Length: ") + Ascii(Decimal(n)) + Ascii("\r\n");
            var text := Decode(line);
      && KeyLength(text) == 14 && text[..14] == "Content-Length" && text[15..] == " " + Decimal(n) + "\r\n"
      && line[0] == 67
  {
    var text := "Content-Length: " + Decimal(n) + "\r\n";
    var line := Ascii("Content-Length: ") + Ascii(Decimal(n)) + Ascii("\r\n");
    assert Decode(line) == text;
    assert text == "Content-Length" + ":" + (" " + Decimal(n) + "\r\n");
    KeyEndsAtColon("Content-Length", " " + Decimal(n) + "\r\n");
    assert line[0] == Ascii("Content-Length: ")[0] == 67;
  }

  lemma LengthKey()
    ensures Lower(Strip("Content-Length")) == "content-length"
  {
  }

  /** The header line that `Frame` writes names the length of the payload. */
  lemma LengthHeader(n: nat)
    ensures var line := Ascii("Content-Length: ") + Ascii(Decimal(n)) + Ascii("\r\n");
      HeaderKey(line) == "content-length" && HeaderValue(line) == Decimal(n) && !Blank(line) && !OpensBrace(line)
  {
    hide Decode, Ascii, Lower, Strip, KeyLength;
    LengthText(n);
    LengthKey();
    ParseIntReadsDecimal(n);
  }

  lemma NoLf(s: string)
    requires forall c :: c in s ==> c as int < 128 && c as int != 10
    ensures LF !in Ascii(s)
  {
    forall i | 0 <= i < |s| ensures Ascii(s)[i] != LF {
      assert s[i] in s;
    }
  }

  /** One header line is consumed, whatever follows it. */
  lemma OneHeader(p: Bytes, rest: Bytes, contentLength: string)
    requires LF !in p && !Blank(p + [LF])
    ensures ReadHeaders(p + [LF] + rest, contentLength)
         == ReadHeaders(rest, if HeaderKey(p + [LF]) == "content-length" then HeaderValue(p + [LF]) else contentLength)
    ensures (p + [LF] + rest)[..LineLength(p + [LF] + rest)] == p + [LF]
  {
    var input := p + [LF] + rest;
    LineEndsAtLf(p, rest);
    assert input[..LineLength(input)] == p + [LF];
    assert input[LineLength(input)..] == rest;
  }

  /** The empty line ends the header part. */
  lemma EmptyLine(rest: Bytes, contentLength: string)
    ensures ReadHeaders([13, LF] + rest, contentLength) == Headers(true, contentLength, rest)
  {
    var input := [13, LF] + rest;
    assert input == [13] + [LF] + rest;
    LineEndsAtLf([13], rest);
    assert input[..LineLength(input)] == [13, LF];
    assert input[LineLength(input)..] == rest;
  }

  /** The header part of a frame: one field, then the empty line. */
  lemma FrameHeaders(payload: Bytes, tail: Bytes)
    ensures ReadHeaders(Frame(payload) + tail, "0") == Headers(true, Decimal(|payload|), payload + tail)
    ensures SkipBlank(Frame(payload) + tail) == Frame(payload) + tail != []
    ensures !OpensBrace((Frame(payload) + tail)[..LineLength(Frame(payload) + tail)])
  {
    var p := Ascii("Content-Length: ") + Ascii(Decimal(|payload|)) + [13];
    var rest := [13, LF] + (payload + tail);
    NoLf("Content-Length: ");
    NoLf(Decimal(|payload|));
    assert Ascii("\r\n") == [13, LF] && Ascii("\r\n\r\n") == [13, LF, 13, LF];
    assert p + [LF] == Ascii("Content-Length: ") + Ascii(Decimal(|payload|)) + Ascii("\r\n");
    assert Frame(payload) + tail == p + [LF] + rest;
    LengthHeader(|payload|);
    OneHeader(p, rest, "0");
    EmptyLine(payload + tail, Decimal(|payload|));
  }

  /** A frame is read back, whatever follows it. */
  lemma FrameReadsBack<M(!new)>(dumps: M -> Bytes, loads: Bytes -> Option<M>, m: M, tail: Bytes)
    requires JsonCodec(dumps, loads)
    ensures ReadMessageSpec(loads, Frame(dumps(m)) + tail) == (Message(m), tail)
  {
    var payload := dumps(m);
    FrameHeaders(payload, tail);
    ParseIntReadsDecimal(|payload|);
    assert (payload + tail)[..|payload|] == payload;
    assert (payload + tail)[|payload|..] == tail;
  }

  lemma EncodingReadsBack<M(!new)>(dumps: M -> Bytes, loads: Bytes -> Option<M>, s: Sent<M>, tail: Bytes)
    requires JsonCodec(dumps, loads)
    ensures ReadMessageSpec(loads, Encode(dumps, s) + tail) == (Message(s.m), tail)
  {
    match s
    case Framed(m) => FrameReadsBack(dumps, loads, m, tail);
    case Line(m) => LineReadsBack(dumps, loads, m, tail);
  }

  /** What the receiver should see: the messages in order, then the end of the stream. */
  function Received<M>(sent: seq<Sent<M>>): seq<ReadResult<M>> {
    if sent == [] then [Eof] else [Message(sent[0].m)] + Received(sent[1..])
  }

  /** Any mixture of frames and lines is read back in order, and then the stream is at its end. */
  lemma {:induction false} FramingRoundTrip<M(!new)>(dumps: M -> Bytes, loads: Bytes -> Option<M>, sent: seq<Sent<M>>)
    requires JsonCodec(dumps, loads)
    ensures ReadMany(loads, EncodeAll(dumps, sent), |sent| + 1) == (Received(sent), [])
  {
    if sent == [] {
      assert ReadMessageSpec(loads, []) == (Eof, []);
      assert ReadMany(loads, [], 0) == ([], []);
      assert [Eof] + Received<M>([])[1..] == Received<M>([]);
      assert EncodeAll(dumps, sent) == [];
    } else {
      EncodingReadsBack(dumps, loads, sent[0], EncodeAll(dumps, sent[1..]));
      FramingRoundTrip(dumps, loads, sent[1..]);
    }
  }
}
