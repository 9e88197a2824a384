/**
 * The two wire formats of the ACP client: Content-Length framing and JSON lines, written by
 * one writer and told apart by one reader.
 */
module RpcWire {
  import opened Text

  datatype Transport = Framed | Jsonl

  datatype ReadError = Eof | UnexpectedEof | Broken | BadLength | MissingLength

  datatype ReadResult = Payload(bytes: string) | Failed(error: ReadError)

  /** What json.Marshal yields for an object, in a Go slice: braces outside, no raw newline inside. */
  predicate Compact(payload: string) {
    && 2 <= |payload| <= MAX_INT
    && payload[0] == '{'
    && payload[|payload| - 1] == '}'
    && '\n' !in payload
  }

  // ---- Writing ----

  const LENGTH_FIELD := "Content-Length: "

  function Header(length: nat): string {
    LENGTH_FIELD + Dec(length) + "\r\n\r\n"
  }

  function Encode(transport: Transport, payload: string): string {
    match transport
    case Jsonl => payload + "\n"
    case Framed => Header(|payload|) + payload
  }

  /** The agent's standard input. A write may fail, having taken some of the bytes. */
  class Sink {
    var written: string

    constructor ()
      ensures written == ""
    {
      written := "";
    }

    method Write(bytes: string) returns (ok: bool, ghost n: nat)
      modifies this
      ensures n <= |bytes| && written == old(written) + bytes[..n]
      ensures ok ==> n == |bytes|
    {
      var taken: nat :| taken <= |bytes|;
      written := written + bytes[..taken];
      n := taken;
      ok := *;
      ok := ok && taken == |bytes|;
    }
  }

  /** The first bytes of two texts in a row. */
  lemma TakeOfTwo(a: string, b: string, n: nat)
    ensures n <= |a| ==> (a + b)[..n] == a[..n]
    ensures |a| <= n <= |a| + |b| ==> (a + b)[..n] == a + b[..n - |a|]
  {
  }

  function FirstPart(transport: Transport, payload: string): string {
    if transport == Jsonl then payload else Header(|payload|)
  }

  function SecondPart(transport: Transport, payload: string): string {
    if transport == Jsonl then "\n" else payload
  }

  lemma TwoParts(transport: Transport, payload: string)
    ensures FirstPart(transport, payload) + SecondPart(transport, payload) == Encode(transport, payload)
  {
  }

  lemma EncodedText(transport: Transport, payload: string)
    ensures Encode(transport, payload)
         == if transport == Jsonl then payload + "\n" else "Content-Length: " + Dec(|payload|) + "\r\n\r\n" + payload
  {
  }

  /** writeMessage: two writes, of which the second is not tried when the first has failed. */
  method WriteMessage(stdin: Sink, transport: Transport, payload: string) returns (ok: bool, ghost n: nat)
    modifies stdin
    ensures n <= |Encode(transport, payload)|
    ensures stdin.written == old(stdin.written) + Encode(transport, payload)[..n]
    ensures ok ==> n == |Encode(transport, payload)|
    ensures ok ==>
      stdin.written == old(stdin.written)
        + if transport == Jsonl then payload + "\n"
          else "Content-Length: " + Dec(|payload|) + "\r\n\r\n" + payload
  {
    EncodedText(transport, payload);
    hide Encode, FirstPart, SecondPart;
    TwoParts(transport, payload);
    ghost var a, b := FirstPart(transport, payload), SecondPart(transport, payload);
    ok, n := WriteFirst(stdin, transport, payload);
    TakeOfTwo(a, b, n);
    if !ok {
      return;
    }
    ghost var m;
    ok, m := WriteSecond(stdin, transport, payload);
    TakeOfTwo(a, b, |a| + m);
    n := |a| + m;
    assert (old(stdin.written) + a) + b[..m] == old(stdin.written) + (a + b[..m]);
  }

  method WriteFirst(stdin: Sink, transport: Transport, payload: string) returns (ok: bool, ghost n: nat)
    modifies stdin
    ensures n <= |FirstPart(transport, payload)| && (ok ==> n == |FirstPart(transport, payload)|)
    ensures stdin.written == old(stdin.written) + FirstPart(transport, payload)[..n]
  {
    if transport == Jsonl {
      ok, n := stdin.Write(payload);
    } else {
      ok, n := stdin.Write("Content-Length: " + Dec(|payload|) + "\r\n\r\n");
    }
  }

  method WriteSecond(stdin: Sink, transport: Transport, payload: string) returns (ok: bool, ghost n: nat)
    modifies stdin
    ensures n <= |SecondPart(transport, payload)| && (ok ==> n == |SecondPart(transport, payload)|)
    ensures stdin.written == old(stdin.written) + SecondPart(transport, payload)[..n]
  {
    if transport == Jsonl {
      ok, n := stdin.Write("\n");
    } else {
      ok, n := stdin.Write(payload);
    }
  }

  // ---- Reading: what one call returns and what it leaves unread ----

  predicate IsBlank(c: char) {
    c == ' ' || c == '\t' || c == '\r' || c == '\n'
  }

  predicate IsLineEnd(c: char) {
    c == '\r' || c == '\n'
  }

  function SkipBlank(s: string): (r: string)
    ensures |r| <= |s|
    ensures r == "" || !IsBlank(r[0])
  {
    if s != "" && IsBlank(s[0]) then SkipBlank(s[1..]) else s
  }

  /** The position just after the first newline, if there is one. */
  function LineEnd(s: string): (r: Option<nat>)
    ensures r.None? <==> '\n' !in s
    ensures r.Some? ==> 0 < r.value <= |s| && s[r.value - 1] == '\n' && '\n' !in s[..r.value - 1]
  {
    if s == "" then None
    else if s[0] == '\n' then Some(1)
    else match LineEnd(s[1..])
      case None => None
      case Some(k) =>
        assert s[..k] == [s[0]] + s[1..][..k - 1];
        Some(k + 1)
  }

  lemma {:induction false} LineEndAt(line: string, rest: string)
    requires '\n' !in line
    ensures LineEnd(line + "\n" + rest) == Some(|line| + 1)
  {
    if line != "" {
      assert (line + "\n" + rest)[1..] == line[1..] + "\n" + rest;
      LineEndAt(line[1..], rest);
    }
  }

  const LENGTH_PREFIX := "content-length:"

  /** The length after one header line, given the length before it. */
  function HeaderLine(line: string, length: int): Option<int> {
    var lower := ToLower(line);
    if LENGTH_PREFIX <= lower then Atoi(TrimSpace(lower[|LENGTH_PREFIX|..])) else Some(length)
  }

  datatype HeaderResult = Body(length: int, rest: string) | BadHeader(error: ReadError, rest: string)

  /** Header lines up to the empty one; the last Content-Length counts. */
  function ReadHeaders(s: string, end: ReadError, length: int): (r: HeaderResult)
    ensures r.Body? ==> |r.rest| < |s|
    decreases |s|
  {
    match LineEnd(s)
    case None => BadHeader(end, "")
    case Some(k) =>
      var line := TrimRight(s[..k], IsLineEnd);
      if line == "" then Body(length, s[k..])
      else match HeaderLine(line, length)
        case None => BadHeader(BadLength, s[k..])
        case Some(n) => ReadHeaders(s[k..], end, n)
  }

  /** One readRPCPayload call on the unread bytes `s` of a stream that ends with `end`. */
  function ReadPayload(s: string, end: ReadError): (r: (ReadResult, string))
    ensures r.0.Payload? ==> |r.1| < |s|
  {
    var t := SkipBlank(s);
    if t == "" then (Failed(end), "")
    else if t[0] == '{' || t[0] == '[' then ReadLine(t, end)
    else ReadFrame(t, end)
  }

  function ReadFrame(t: string, end: ReadError): (r: (ReadResult, string))
    ensures r.0.Payload? ==> |r.1| < |t|
  {
    match ReadHeaders(t, end, 0)
    case BadHeader(error, rest) => (Failed(error), rest)
    case Body(length, rest) =>
      if length <= 0 then (Failed(MissingLength), rest)
      else if |rest| < length then (Failed(ShortRead(rest, end)), "")
      else (Payload(TrimSpace(rest[..length])), rest[length..])
  }

  function ReadLine(t: string, end: ReadError): (ReadResult, string) {
    match LineEnd(t)
    case Some(k) => (Payload(TrimSpace(t[..k])), t[k..])
    case None =>
      if end == Eof && t != "" then (Payload(TrimSpace(t)), "") else (Failed(end), "")
  }

  /** io.ReadFull turns an end of file after the first byte into an unexpected one. */
  function ShortRead(rest: string, end: ReadError): ReadError {
    if end == Eof && rest != "" then UnexpectedEof else end
  }

  // ---- Reading: the code, on a buffered reader ----

  /** A bufio.Reader over the agent's standard output; `end` is what Read reports after the last byte. */
  class Reader {
    var rest: string
    const end: ReadError

    constructor (bytes: string, end: ReadError)
      ensures rest == bytes && this.end == end
    {
      rest := bytes;
      this.end := end;
    }

    method Peek() returns (c: Option<char>)
      ensures c == if rest == "" then None else Some(rest[0])
    {
      c := if rest == "" then None else Some(rest[0]);
    }

    method ReadByte()
      requires rest != ""
      modifies this
      ensures rest == old(rest)[1..]
    {
      rest := rest[1..];
    }

    /** ReadBytes and ReadString up to a newline; at the end of the stream, the bytes so far. */
    method ReadUntilNewline() returns (line: string, ok: bool)
      modifies this
      ensures ok == LineEnd(old(rest)).Some?
      ensures line + rest == old(rest)
      ensures if ok then |line| == LineEnd(old(rest)).value else rest == ""
    {
      line := "";
      while rest != ""
        invariant line + rest == old(rest)
        invariant '\n' !in line
        decreases |rest|
      {
        var c := rest[0];
        if c == '\n' {
          assert old(rest) == line + "\n" + rest[1..];
          LineEndAt(line, rest[1..]);
          line, rest := line + "\n", rest[1..];
          return line, true;
        }
        line, rest := line + [c], rest[1..];
      }
      assert line == old(rest);
      return line, false;
    }

    method ReadFull(length: nat) returns (bytes: string, ok: bool)
      modifies this
      ensures ok == (length <= |old(rest)|)
      ensures if ok then bytes == old(rest)[..length] && rest == old(rest)[length..]
              else bytes == old(rest) && rest == ""
    {
      if length <= |rest| {
        bytes, rest, ok := rest[..length], rest[length..], true;
      } else {
        bytes, rest, ok := rest, "", false;
      }
    }
  }

  method ReadRPCPayload(reader: Reader) returns (r: ReadResult)
    modifies reader
    ensures (r, reader.rest) == ReadPayload(old(reader.rest), reader.end)
  {
    while true
      invariant SkipBlank(reader.rest) == SkipBlank(old(reader.rest))
      decreases |reader.rest|
    {
      var peek := reader.Peek();
      if peek.None? {
        return Failed(reader.end);
      }
      if IsBlank(peek.value) {
        reader.ReadByte();
        continue;
      }
      if peek.value == '{' || peek.value == '[' {
        ghost var t := reader.rest;
        var line, ok := reader.ReadUntilNewline();
        if !ok {
          assert line == t;
          if reader.end == Eof && line != "" {
            return Payload(TrimSpace(line));
          }
          return Failed(reader.end);
        }
        assert t[..|line|] == line && t[|line|..] == reader.rest;
        return Payload(TrimSpace(line));
      }
      break;
    }
    ghost var t := reader.rest;
    var contentLength := 0;
    while true
      invariant ReadHeaders(reader.rest, reader.end, contentLength) == ReadHeaders(t, reader.end, 0)
      decreases |reader.rest|
    {
      ghost var s := reader.rest;
      var line, ok := reader.ReadUntilNewline();
      if !ok {
        return Failed(reader.end);
      }
      assert s[..|line|] == line && s[|line|..] == reader.rest;
      line := TrimRight(line, IsLineEnd);
      if line == "" {
        break;
      }
      var lower := ToLower(line);
      if "content-length:" <= lower {
        var parsed := Atoi(TrimSpace(lower[|"content-length:"|..]));
        if parsed.None? {
          return Failed(BadLength);
        }
        contentLength := parsed.value;
      }
    }
    if contentLength <= 0 {
      return Failed(MissingLength);
    }
    ghost var rest := reader.rest;
    var buf, ok := reader.ReadFull(contentLength);
    if !ok {
      return Failed(if reader.end == Eof && buf != "" then UnexpectedEof else reader.end);
    }
    return Payload(TrimSpace(buf));
  }
}
