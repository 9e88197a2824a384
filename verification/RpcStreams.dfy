/**
 * Whole streams: what the writer emits, in any mix of the two formats, the reader returns.
 */
module RpcStreams {
  import opened Text
  import opened RpcWire

  /** One written message and the white space that happens to precede it. */
  datatype Message = Message(gap: string, transport: Transport, payload: string)

  predicate Blank(s: string) {
    forall i | 0 <= i < |s| :: s[i] == ' ' || s[i] == '\t' || s[i] == '\r' || s[i] == '\n'
  }

  predicate WellFormed(m: Message) {
    Blank(m.gap) && Compact(m.payload)
  }

  function Bytes(m: Message): string {
    m.gap + Encode(m.transport, m.payload)
  }

  function Stream(messages: seq<Message>): string {
    if messages == [] then "" else Bytes(messages[0]) + Stream(messages[1..])
  }

  function Payloads(messages: seq<Message>): (r: seq<string>)
    ensures |r| == |messages|
  {
    if messages == [] then [] else [messages[0].payload] + Payloads(messages[1..])
  }

  /** readRPCPayload until its first error, as the read loop calls it. */
  function ReadAll(s: string, end: ReadError): (seq<string>, ReadError)
    decreases |s|
  {
    match ReadPayload(s, end)
    case (Failed(error), _) => ([], error)
    case (Payload(bytes), rest) =>
      var (more, error) := ReadAll(rest, end);
      ([bytes] + more, error)
  }

  // ---- One message ----

  lemma {:induction false} SkipBlankRun(gap: string, s: string)
    requires Blank(gap)
    requires s == "" || !IsBlank(s[0])
    ensures SkipBlank(gap + s) == s
  {
    if gap == "" {
      assert gap + s == s;
    } else {
      assert (gap + s)[1..] == gap[1..] + s;
      SkipBlankRun(gap[1..], s);
    }
  }

  lemma TrimLine(line: string, ending: string, drop: char -> bool)
    requires ending == "" || forall c <- ending :: drop(c)
    requires line == "" || !drop(line[|line| - 1])
    ensures TrimRight(line + ending, drop) == line
  {
    if ending == "" {
      assert line + ending == line;
    } else {
      assert (line + ending)[..|line + ending| - 1] == line + ending[..|ending| - 1];
      TrimLine(line, ending[..|ending| - 1], drop);
    }
  }

  lemma ReadJsonl(payload: string, rest: string, end: ReadError)
    requires Compact(payload)
    ensures ReadPayload(payload + "\n" + rest, end) == (Payload(payload), rest)
  {
    var s := payload + "\n" + rest;
    LineEndAt(payload, rest);
    assert s[..|payload| + 1] == payload + "\n" && s[|payload| + 1..] == rest;
    TrimLine(payload, "\n", IsSpace);
    assert TrimSpace(payload + "\n") == payload;
  }

  /** A line that starts like a JSON object or array is a payload whatever it goes on with. */
  lemma ReadsJsonLine(gap: string, line: string, rest: string, end: ReadError)
    requires Blank(gap) && line != "" && (line[0] == '{' || line[0] == '[') && '\n' !in line
    ensures ReadPayload(gap + (line + "\n" + rest), end) == (Payload(TrimSpace(line)), rest)
  {
    var s := line + "\n" + rest;
    ReadAfterGap(gap, s, end);
    LineEndAt(line, rest);
    assert s[..|line| + 1] == line + "\n" && s[|line| + 1..] == rest;
    assert (line + "\n")[..|line|] == line;
    assert TrimRight(line + "\n", IsSpace) == TrimRight(line, IsSpace);
    assert TrimSpace(line + "\n") == TrimSpace(line);
  }

  lemma LowerField()
    ensures ToLower(LENGTH_FIELD) == LENGTH_PREFIX + " "
  {
    assert |LENGTH_FIELD| == 16 && |LENGTH_PREFIX| == 15;
  }

  lemma LowerDigits(digits: string)
    requires AllDigits(digits)
    ensures ToLower(digits) == digits
  {
    forall i | 0 <= i < |digits| ensures LowerChar(digits[i]) == digits[i] {
      assert digits[i] in digits;
    }
  }

  lemma LowerConcat(a: string, b: string)
    ensures ToLower(a + b) == ToLower(a) + ToLower(b)
  {
  }

  lemma TrimLeading(s: string)
    requires s != "" && !IsSpace(s[0]) && !IsSpace(s[|s| - 1])
    ensures TrimSpace(" " + s) == s
  {
    assert (" " + s)[1..] == s;
    TrimSpaceFixed(s);
  }

  lemma LengthLine(length: nat)
    requires length <= MAX_INT
    ensures HeaderLine(LENGTH_FIELD + Dec(length), 0) == Some(length)
  {
    var digits := Dec(length);
    var lower := ToLower(LENGTH_FIELD + digits);
    LowerConcat(LENGTH_FIELD, digits);
    LowerField();
    LowerDigits(digits);
    FieldValue(LENGTH_PREFIX, digits, lower);
    assert IsDigit(digits[0]) && IsDigit(digits[|digits| - 1]);
    TrimLeading(digits);
    AtoiDec(length);
  }

  lemma FieldValue(prefix: string, value: string, line: string)
    requires line == prefix + " " + value
    ensures prefix <= line && line[|prefix|..] == " " + value
  {
  }

  /** One header line: up to the newline, without its line end. */
  lemma ReadHeaderLine(line: string, rest: string, end: ReadError, length: int)
    requires '\n' !in line
    requires line == "" || !IsLineEnd(line[|line| - 1])
    ensures ReadHeaders(line + "\r\n" + rest, end, length)
         == if line == "" then Body(length, rest)
            else match HeaderLine(line, length)
              case None => BadHeader(BadLength, rest)
              case Some(n) => ReadHeaders(rest, end, n)
  {
    var s := line + "\r\n" + rest;
    assert s == (line + "\r") + "\n" + rest;
    LineEndAt(line + "\r", rest);
    var k := |line| + 2;
    assert s[..k] == line + "\r\n" && s[k..] == rest;
    TrimLine(line, "\r\n", IsLineEnd);
  }

  lemma ReadHeader(length: nat, rest: string, end: ReadError)
    requires length <= MAX_INT
    ensures ReadHeaders(Header(length) + rest, end, 0) == Body(length, rest)
  {
    var digits := Dec(length);
    var field := LENGTH_FIELD + digits;
    FieldLine(LENGTH_FIELD, digits);
    LengthLine(length);
    var after := "" + "\r\n" + rest;
    assert Header(length) + rest == field + "\r\n" + after;
    ReadHeaderLine(field, after, end, 0);
    ReadHeaderLine("", rest, end, length);
  }

  lemma FieldLine(name: string, digits: string)
    requires AllDigits(digits) && digits != "" && '\n' !in name
    ensures '\n' !in name + digits
    ensures !IsLineEnd((name + digits)[|name + digits| - 1])
  {
    assert IsDigit(digits[|digits| - 1]);
  }

  lemma FrameStart(t: string, end: ReadError)
    requires t != "" && t[0] == 'C'
    ensures ReadPayload(t, end) == ReadFrame(t, end)
  {
  }

  lemma ReadFramed(payload: string, rest: string, end: ReadError)
    requires Compact(payload)
    ensures ReadPayload(Header(|payload|) + payload + rest, end) == (Payload(payload), rest)
  {
    var body := payload + rest;
    assert Header(|payload|) + payload + rest == Header(|payload|) + body;
    FrameStart(Header(|payload|) + body, end);
    ReadHeader(|payload|, body, end);
    assert body[..|payload|] == payload && body[|payload|..] == rest;
    TrimSpaceFixed(payload);
  }

  lemma ReadAfterGap(gap: string, s: string, end: ReadError)
    requires Blank(gap)
    requires s != "" && !IsBlank(s[0])
    ensures ReadPayload(gap + s, end) == ReadPayload(s, end)
  {
    SkipBlankRun(gap, s);
  }

  lemma EncodeStarts(transport: Transport, payload: string)
    requires Compact(payload)
    ensures Encode(transport, payload) != "" && !IsBlank(Encode(transport, payload)[0])
  {
    if transport == Framed {
      assert Encode(transport, payload)[0] == 'C';
    }
  }

  /** The reader tells the two formats apart and takes exactly one message off the stream. */
  lemma ReadOne(m: Message, rest: string, end: ReadError)
    requires WellFormed(m)
    ensures ReadPayload(Bytes(m) + rest, end) == (Payload(m.payload), rest)
  {
    hide Encode, ReadPayload, Compact, IsBlank;
    var s := Encode(m.transport, m.payload) + rest;
    ReadEncoded(m.transport, m.payload, rest, end);
    EncodeStarts(m.transport, m.payload);
    ReadAfterGap(m.gap, s, end);
    assert Bytes(m) + rest == m.gap + s;
  }

  lemma ReadEncoded(transport: Transport, payload: string, rest: string, end: ReadError)
    requires Compact(payload)
    ensures ReadPayload(Encode(transport, payload) + rest, end) == (Payload(payload), rest)
  {
    hide ReadPayload, Compact, Header;
    match transport
    case Jsonl =>
      assert Encode(transport, payload) + rest == payload + "\n" + rest;
      ReadJsonl(payload, rest, end);
    case Framed => ReadFramed(payload, rest, end);
  }

  // ---- Main results ----

  /** Round trip: the reader returns exactly the written payloads, in order, then the end of the stream. */
  lemma {:induction false} StreamRoundTrip(messages: seq<Message>, tail: string, end: ReadError)
    requires forall m <- messages :: WellFormed(m)
    requires Blank(tail)
    ensures ReadAll(Stream(messages) + tail, end) == (Payloads(messages), end)
  {
    if messages == [] {
      assert Stream(messages) + tail == tail + "";
      SkipBlankRun(tail, "");
    } else {
      var rest := Stream(messages[1..]) + tail;
      assert Stream(messages) + tail == Bytes(messages[0]) + rest;
      ReadOne(messages[0], rest, end);
      StreamRoundTrip(messages[1..], tail, end);
    }
  }

  // ---- Streams cut anywhere ----

  lemma {:induction false} NoLineEnd(s: string)
    requires '\n' !in s
    ensures LineEnd(s) == None
  {
  }

  lemma CutHeader(length: nat, n: nat, end: ReadError)
    requires length <= MAX_INT && n < |Header(length)|
    ensures ReadHeaders(Header(length)[..n], end, 0) == BadHeader(end, "")
  {
    var digits := Dec(length);
    var field := LENGTH_FIELD + digits;
    FieldLine(LENGTH_FIELD, digits);
    assert Header(length) == field + "\r\n" + "\r\n";
    var s := Header(length)[..n];
    if n < |field| + 2 {
      assert s == (field + "\r")[..n];
      NoLineEnd(s);
    } else {
      var left := "\r\n"[..n - |field| - 2];
      assert s == field + "\r\n" + left;
      ReadHeaderLine(field, left, end, 0);
      LengthLine(length);
      NoLineEnd(left);
    }
  }

  /**
   * What the first `n` bytes of a message read as: nothing, except at a clean end of file, where the
   * start of a JSON line is taken for a line.
   */
  function Remnant(m: Message, n: nat, end: ReadError): seq<string>
    requires n < |Bytes(m)|
  {
    if m.transport == Jsonl && end == Eof && n > |m.gap| then [TrimSpace(m.payload[..n - |m.gap|])] else []
  }

  lemma CutFramed(payload: string, j: nat, end: ReadError)
    requires Compact(payload) && 0 < j < |Header(|payload|) + payload|
    ensures ReadPayload((Header(|payload|) + payload)[..j], end).0.Failed?
  {
    var header := Header(|payload|);
    var t := (header + payload)[..j];
    FrameStart(t, end);
    if j < |header| {
      assert t == header[..j];
      CutHeader(|payload|, j, end);
    } else {
      var part := payload[..j - |header|];
      assert t == header + part;
      ReadHeader(|payload|, part, end);
    }
  }

  lemma CutJsonl(payload: string, j: nat, end: ReadError)
    requires Compact(payload) && 0 < j <= |payload|
    ensures ReadPayload(payload[..j], end)
         == if end == Eof then (Payload(TrimSpace(payload[..j])), "") else (Failed(end), "")
  {
    NoLineEnd(payload[..j]);
    assert SkipBlank(payload[..j]) == payload[..j];
  }

  lemma CutMessage(m: Message, n: nat, end: ReadError)
    requires WellFormed(m) && n < |Bytes(m)|
    ensures ReadAll(Bytes(m)[..n], end).0 == Remnant(m, n, end)
  {
    var s := Bytes(m)[..n];
    if n <= |m.gap| {
      assert s == m.gap[..n] + "";
      SkipBlankRun(m.gap[..n], "");
    } else {
      var j := n - |m.gap|;
      var t := Encode(m.transport, m.payload)[..j];
      assert s == m.gap + t;
      EncodeStarts(m.transport, m.payload);
      ReadAfterGap(m.gap, t, end);
      match m.transport
      case Jsonl =>
        assert t == m.payload[..j];
        CutJsonl(m.payload, j, end);
        assert ReadAll("", end).0 == [];
      case Framed => CutFramed(m.payload, j, end);
    }
  }

  /** How many messages lie whole within the first `n` bytes of a stream. */
  function Whole(messages: seq<Message>, n: nat): (k: nat)
    ensures k <= |messages|
  {
    if messages == [] || n < |Bytes(messages[0])| then 0 else 1 + Whole(messages[1..], n - |Bytes(messages[0])|)
  }

  /** How many bytes of the next one come after those. */
  function Beyond(messages: seq<Message>, n: nat): (j: nat)
    ensures Whole(messages, n) < |messages| ==> j < |Bytes(messages[Whole(messages, n)])|
  {
    if messages == [] || n < |Bytes(messages[0])| then n else Beyond(messages[1..], n - |Bytes(messages[0])|)
  }

  /** The bytes of the whole messages and of the next one are the bytes there are. */
  lemma {:induction false} WholeMeaning(messages: seq<Message>, n: nat)
    ensures |Stream(messages[..Whole(messages, n)])| + Beyond(messages, n) == n
    decreases |messages|
  {
    hide Bytes;
    if messages != [] && |Bytes(messages[0])| <= n {
      var k := Whole(messages, n);
      WholeMeaning(messages[1..], n - |Bytes(messages[0])|);
      assert messages[..k][1..] == messages[1..][..k - 1];
    }
  }

  /** What a reader gets of the first `n` bytes of a stream. */
  function Received(messages: seq<Message>, n: nat, end: ReadError): seq<string> {
    var k := Whole(messages, n);
    Payloads(messages)[..k] + if k == |messages| then [] else Remnant(messages[k], Beyond(messages, n), end)
  }

  lemma ReadAllFirst(m: Message, rest: string, end: ReadError)
    requires WellFormed(m)
    ensures ReadAll(Bytes(m) + rest, end).0 == [m.payload] + ReadAll(rest, end).0
  {
    ReadOne(m, rest, end);
  }

  lemma ReceivedFirst(messages: seq<Message>, n: nat, end: ReadError)
    requires messages != [] && |Bytes(messages[0])| <= n
    ensures Received(messages, n, end)
         == [messages[0].payload] + Received(messages[1..], n - |Bytes(messages[0])|, end)
  {
    hide Bytes, Remnant;
    var k := Whole(messages, n);
    assert Payloads(messages)[..k] == [messages[0].payload] + Payloads(messages[1..])[..k - 1];
  }

  /**
   * However many bytes of a stream arrive, the reader returns every message that arrived whole, in
   * order, and of the next one nothing, except the start of a JSON line at a clean end of file.
   */
  lemma {:induction false} CutStream(messages: seq<Message>, n: nat, end: ReadError)
    requires forall m <- messages :: WellFormed(m)
    requires n <= |Stream(messages)|
    ensures ReadAll(Stream(messages)[..n], end).0 == Received(messages, n, end)
    decreases |messages|
  {
    hide Bytes, Remnant, ReadPayload, WellFormed, Received;
    if messages == [] {
      assert ReadAll("", end).0 == Received([], 0, end) by { NothingReceived(end); }
    } else if n < |Bytes(messages[0])| {
      assert Stream(messages)[..n] == Bytes(messages[0])[..n];
      CutMessage(messages[0], n, end);
      assert Received(messages, n, end) == Remnant(messages[0], n, end) by { CutInFirst(messages, n, end); }
    } else {
      var more, left := messages[1..], n - |Bytes(messages[0])|;
      var rest := Stream(more)[..left];
      assert Stream(messages)[..n] == Bytes(messages[0]) + rest;
      ReadAllFirst(messages[0], rest, end);
      CutStream(more, left, end);
      ReceivedFirst(messages, n, end);
    }
  }

  lemma NothingReceived(end: ReadError)
    ensures ReadAll("", end).0 == [] == Received([], 0, end)
  {
  }

  lemma CutInFirst(messages: seq<Message>, n: nat, end: ReadError)
    requires messages != [] && n < |Bytes(messages[0])|
    ensures Received(messages, n, end) == Remnant(messages[0], n, end)
  {
  }

  lemma {:induction false} StreamMore(messages: seq<Message>, m: Message)
    ensures Stream(messages + [m]) == Stream(messages) + Bytes(m)
    decreases |messages|
  {
    hide Bytes;
    if messages == [] {
      assert [] + [m] == [m] && [m][1..] == [];
      assert Bytes(m) + "" == Bytes(m);
    } else {
      StreamMore(messages[1..], m);
      assert (messages + [m])[1..] == messages[1..] + [m];
      assert Bytes(messages[0]) + (Stream(messages[1..]) + Bytes(m)) ==
          (Bytes(messages[0]) + Stream(messages[1..])) + Bytes(m);
    }
  }

  lemma {:induction false} AllBefore(messages: seq<Message>, m: Message, j: nat)
    requires j < |Bytes(m)|
    ensures Whole(messages + [m], |Stream(messages)| + j) == |messages|
    ensures Beyond(messages + [m], |Stream(messages)| + j) == j
    decreases |messages|
  {
    hide Bytes;
    if messages == [] {
      assert [] + [m] == [m];
    } else {
      AllBefore(messages[1..], m, j);
      assert (messages + [m])[1..] == messages[1..] + [m];
    }
  }

  lemma {:induction false} PayloadsMore(messages: seq<Message>, m: Message)
    ensures Payloads(messages + [m]) == Payloads(messages) + [m.payload]
    decreases |messages|
  {
    if messages == [] {
      assert [] + [m] == [m];
    } else {
      PayloadsMore(messages[1..], m);
      assert (messages + [m])[1..] == messages[1..] + [m];
    }
  }

  /**
   * When a write fails before the end of a message, and it is the last, the reader still gets every
   * message before it, and of that one nothing, except the start of a JSON line at a clean end of file.
   */
  lemma FailedWriteReads(messages: seq<Message>, m: Message, n: nat, end: ReadError)
    requires forall x <- messages + [m] :: WellFormed(x)
    requires n < |Encode(m.transport, m.payload)|
    ensures ReadAll(Stream(messages) + m.gap + Encode(m.transport, m.payload)[..n], end).0
         == Payloads(messages) + Remnant(m, |m.gap| + n, end)
  {
    hide ReadAll, Encode, Remnant, Payloads, Stream, Whole, Beyond, WellFormed;
    var all, length := messages + [m], |Stream(messages)| + |m.gap| + n;
    StreamMore(messages, m);
    assert Stream(all)[..length] == Stream(messages) + m.gap + Encode(m.transport, m.payload)[..n];
    CutStream(all, length, end);
    AllBefore(messages, m, |m.gap| + n);
    PayloadsMore(messages, m);
  }
}
