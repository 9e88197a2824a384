/**
 * Header blocks as other writers send them: any header lines, Content-Length in any letter case and
 * with any padding, lines ended by a newline with or without a carriage return.
 */
module RpcHeaders {
  import opened Text
  import opened RpcWire
  import opened RpcStreams

  /** The name of the length field, each letter large or small. */
  predicate NamesLength(name: string) {
    |name| == 15 && forall i | 0 <= i < 15 :: name[i] == "content-length:"[i] || name[i] == "CONTENT-LENGTH:"[i]
  }

  predicate Padding(s: string) {
    forall c <- s :: c == ' ' || c == '\t'
  }

  datatype HeaderField =
    | Length(name: string, pad: string, number: string, n: int, trail: string)
    | Foreign(text: string)

  ghost predicate Legal(f: HeaderField) {
    match f
    case Length(name, pad, number, n, trail) =>
      && NamesLength(name) && Padding(pad) && Padding(trail)
      && Writes(number, n) && -0x8000_0000_0000_0000 <= n <= 0x7FFF_FFFF_FFFF_FFFF
    case Foreign(text) =>
      && text != "" && '\n' !in text && text[|text| - 1] != '\r'
      && !(|text| >= 15 && NamesLength(text[..15]))
  }

  function LineOf(f: HeaderField): string {
    match f
    case Length(name, pad, number, _, trail) => name + (pad + number + trail)
    case Foreign(text) => text
  }

  /** The lines of a block without the empty one. */
  function Block(fields: seq<HeaderField>, ending: string): string {
    if fields == [] then "" else LineOf(fields[0]) + ending + Block(fields[1..], ending)
  }

  /** The number of the last length field, or `length` where there is none. */
  function LastLength(fields: seq<HeaderField>, length: int): int {
    if fields == [] then length else LastLength(fields[1..], if fields[0].Length? then fields[0].n else length)
  }

  predicate EndsLine(ending: string) {
    ending == "\n" || ending == "\r\n"
  }

  // ---- Letters ----

  lemma LowerOf(c: char)
    ensures 'a' <= LowerChar(c) <= 'z' <==> 'a' <= c <= 'z' || 'A' <= c <= 'Z'
    ensures !('A' <= c <= 'Z') ==> LowerChar(c) == c
    ensures 'A' <= c <= 'Z' ==> LowerChar(c) as int == c as int + 32
  {
  }

  /** The two spellings of the name, letter by letter. */
  lemma NameLetter(i: nat)
    requires i < 15
    ensures var (small, large) := ("content-length:"[i], "CONTENT-LENGTH:"[i]);
      if small == '-' || small == ':' then large == small
      else 'a' <= small <= 'z' && small as int == large as int + 32
  {
  }

  lemma LowersToName(c: char, i: nat)
    requires i < 15
    ensures LowerChar(c) == "content-length:"[i] <==> c == "content-length:"[i] || c == "CONTENT-LENGTH:"[i]
  {
    NameLetter(i);
    LowerOf(c);
  }

  /** A line starts with the name of the length field in some letter case, or it does not. */
  lemma StartsWithName(line: string)
    ensures LENGTH_PREFIX <= ToLower(line) <==> |line| >= 15 && NamesLength(line[..15])
  {
    hide ToLower, LowerChar;
    assert |LENGTH_PREFIX| == 15;
    if |line| >= 15 {
      forall i | 0 <= i < 15
        ensures ToLower(line)[i] == LENGTH_PREFIX[i]
           <==> line[..15][i] == "content-length:"[i] || line[..15][i] == "CONTENT-LENGTH:"[i]
      {
        LowersToName(line[i], i);
      }
    }
  }

  // ---- One line ----

  lemma {:induction false} TrimPad(pad: string, s: string)
    requires Padding(pad) && s != "" && !IsSpace(s[0])
    ensures TrimLeft(pad + s) == s
    decreases |pad|
  {
    if pad == "" {
      assert pad + s == s;
    } else {
      assert (pad + s)[1..] == pad[1..] + s && (pad + s)[0] == pad[0] && pad[0] in pad;
      forall c | c in pad[1..] ensures c in pad {
      }
      TrimPad(pad[1..], s);
    }
  }

  lemma TrimBoth(pad: string, s: string, trail: string)
    requires Padding(pad) && Padding(trail) && s != "" && !IsSpace(s[0]) && !IsSpace(s[|s| - 1])
    ensures TrimSpace(pad + s + trail) == s
  {
    assert pad + s + trail == pad + (s + trail);
    TrimPad(pad, s + trail);
    TrimLine(s, trail, IsSpace);
  }

  predicate Numeral(c: char) {
    IsDigit(c) || c == '+' || c == '-'
  }

  lemma NumberText(number: string, n: int)
    requires Writes(number, n)
    ensures number != "" && forall c <- number :: Numeral(c)
  {
    var sign, k :| number == Written(sign, k, n) && Signs(sign, n);
    assert forall c <- Zeros(k) :: IsDigit(c);
  }

  lemma LowerKeeps(s: string)
    requires forall c <- s :: !('A' <= c <= 'Z')
    ensures ToLower(s) == s
  {
    forall i | 0 <= i < |s| ensures ToLower(s)[i] == s[i] {
      assert s[i] in s;
    }
  }

  lemma ValueText(pad: string, number: string, n: int, trail: string)
    requires Padding(pad) && Padding(trail) && Writes(number, n)
    ensures ToLower(pad + number + trail) == pad + number + trail
    ensures TrimSpace(pad + number + trail) == number
    ensures '\n' !in pad + number + trail && '\r' !in pad + number + trail && pad + number + trail != ""
  {
    hide Writes, TrimSpace, ToLower;
    NumberText(number, n);
    LowerKeeps(pad + number + trail);
    assert number[0] in number && number[|number| - 1] in number;
    TrimBoth(pad, number, trail);
  }

  lemma ReadsField(f: HeaderField, length: int)
    requires Legal(f)
    ensures HeaderLine(LineOf(f), length) == Some(if f.Length? then f.n else length)
  {
    hide Writes, TrimSpace, ToLower, Atoi, NamesLength;
    StartsWithName(LineOf(f));
    if f.Length? {
      var value := f.pad + f.number + f.trail;
      assert |f.name| == 15 by { assert NamesLength(f.name); NameLength(f.name); }
      assert LineOf(f)[..15] == f.name;
      LowerConcat(f.name, value);
      ValueText(f.pad, f.number, f.n, f.trail);
      assert |ToLower(f.name)| == 15;
      assert ToLower(LineOf(f))[15..] == value;
      AtoiExactly(f.number, f.n);
    }
  }

  lemma NameLength(name: string)
    requires NamesLength(name)
    ensures |name| == 15 && '\n' !in name && name[0] in {'c', 'C'}
  {
    forall c | c in name ensures c != '\n' {
      var i :| 0 <= i < 15 && name[i] == c;
      NameLetter(i);
    }
  }

  lemma FieldIsLine(f: HeaderField)
    requires Legal(f)
    ensures LineOf(f) != "" && '\n' !in LineOf(f) && !IsLineEnd(LineOf(f)[|LineOf(f)| - 1])
  {
    hide Writes, NamesLength;
    if f.Length? {
      NameLength(f.name);
      ValueText(f.pad, f.number, f.n, f.trail);
      var value := f.pad + f.number + f.trail;
      assert LineOf(f)[|LineOf(f)| - 1] == value[|value| - 1] && value[|value| - 1] in value;
    } else {
      assert f.text[|f.text| - 1] in f.text;
    }
  }

  /** One header line with either ending. */
  lemma ReadsLine(line: string, ending: string, rest: string, end: ReadError, length: int)
    requires '\n' !in line && EndsLine(ending)
    requires line == "" || !IsLineEnd(line[|line| - 1])
    ensures ReadHeaders(line + ending + rest, end, length)
         == if line == "" then Body(length, rest)
            else match HeaderLine(line, length)
              case None => BadHeader(BadLength, rest)
              case Some(n) => ReadHeaders(rest, end, n)
  {
    hide HeaderLine;
    var s := line + ending + rest;
    var before := line + ending[..|ending| - 1];
    assert s == before + "\n" + rest;
    LineEndAt(before, rest);
    var k := |line| + |ending|;
    assert s[..k] == line + ending && s[k..] == rest;
    TrimLine(line, ending, IsLineEnd);
  }

  // ---- Whole blocks ----

  /** Any legal block is read up to its empty line, and the last length given counts. */
  lemma {:induction false} ReadsBlock(fields: seq<HeaderField>, ending: string, rest: string, end: ReadError,
                                      length: int)
    requires (forall f <- fields :: Legal(f)) && EndsLine(ending)
    ensures ReadHeaders(Block(fields, ending) + ending + rest, end, length) == Body(LastLength(fields, length), rest)
    decreases |fields|
  {
    hide ReadHeaders, HeaderLine, Legal, LineOf;
    if fields == [] {
      assert Block(fields, ending) + ending + rest == "" + ending + rest;
      ReadsLine("", ending, rest, end, length);
    } else {
      var f := fields[0];
      var after := Block(fields[1..], ending) + ending + rest;
      assert Block(fields, ending) + ending + rest == LineOf(f) + ending + after;
      FieldIsLine(f);
      ReadsField(f, length);
      ReadsLine(LineOf(f), ending, after, end, length);
      ReadsBlock(fields[1..], ending, rest, end, if f.Length? then f.n else length);
    }
  }

  /** A block starts like no JSON text and like no blank. */
  predicate Starts(fields: seq<HeaderField>) {
    && fields != [] && LineOf(fields[0]) != ""
    && var c := LineOf(fields[0])[0]; !IsBlank(c) && c != '{' && c != '['
  }

  lemma BlockStarts(fields: seq<HeaderField>, ending: string, rest: string, end: ReadError)
    requires Starts(fields)
    ensures ReadPayload(Block(fields, ending) + rest, end) == ReadFrame(Block(fields, ending) + rest, end)
  {
    hide LineOf, ReadFrame, IsBlank;
    var t := Block(fields, ending) + rest;
    assert t[0] == LineOf(fields[0])[0];
    assert SkipBlank(t) == t;
  }

  /**
   * A frame with any header lines around Content-Length, in any letter case, is read as that many bytes
   * after the empty line; the last Content-Length counts. Without one, or when it is not positive, the
   * length is missing, and nothing but the header is taken.
   */
  lemma FrameOfAnyHeader(fields: seq<HeaderField>, ending: string, rest: string, end: ReadError)
    requires (forall f <- fields :: Legal(f)) && EndsLine(ending) && Starts(fields)
    ensures var n := LastLength(fields, 0);
      ReadPayload(Block(fields, ending) + ending + rest, end)
      == if n <= 0 then (Failed(MissingLength), rest)
         else if |rest| < n then (Failed(if end == Eof && rest != "" then UnexpectedEof else end), "")
         else (Payload(TrimSpace(rest[..n])), rest[n..])
  {
    hide ReadHeaders, Legal, TrimSpace, Starts;
    assert Block(fields, ending) + ending + rest == Block(fields, ending) + (ending + rest);
    BlockStarts(fields, ending, ending + rest, end);
    ReadsBlock(fields, ending, rest, end, 0);
  }

  /** A Content-Length that writes no 64-bit number ends the reading there and then. */
  lemma BadLengthFails(fields: seq<HeaderField>, name: string, value: string, ending: string, rest: string,
                       end: ReadError)
    requires (forall f <- fields :: Legal(f)) && EndsLine(ending) && Starts(fields + [Foreign(name + value)])
    requires NamesLength(name) && '\n' !in value && value != "" && value[|value| - 1] != '\r'
    requires forall n :: Writes(TrimSpace(ToLower(value)), n) ==>
                           !(-0x8000_0000_0000_0000 <= n <= 0x7FFF_FFFF_FFFF_FFFF)
    ensures ReadPayload(Block(fields, ending) + (name + value + ending + rest), end) == (Failed(BadLength), rest)
  {
    hide ReadHeaders, Legal, TrimSpace, Starts, NamesLength, ToLower, Writes, Atoi, IsLineEnd;
    var line := name + value;
    BadLine(name, value);
    NameLength(name);
    assert Block(fields + [Foreign(line)], ending) == Block(fields, ending) + (line + ending) by {
      BlockMore(fields, Foreign(line), ending);
    }
    assert Block(fields, ending) + (line + ending + rest) == Block(fields + [Foreign(line)], ending) + rest;
    BlockStarts(fields + [Foreign(line)], ending, rest, end);
    BadAfter(fields, line, ending, rest, end, 0);
  }

  lemma BadLine(name: string, value: string)
    requires NamesLength(name) && value != "" && value[|value| - 1] != '\r' && '\n' !in value
    requires forall n :: Writes(TrimSpace(ToLower(value)), n) ==>
                           !(-0x8000_0000_0000_0000 <= n <= 0x7FFF_FFFF_FFFF_FFFF)
    ensures forall length :: HeaderLine(name + value, length) == None
    ensures '\n' !in name + value && !IsLineEnd((name + value)[|name + value| - 1])
  {
    hide NamesLength, TrimSpace, ToLower, Atoi, Writes;
    NameLength(name);
    StartsWithName(name + value);
    assert (name + value)[..15] == name;
    LowerConcat(name, value);
    assert |ToLower(name)| == 15;
    assert ToLower(name + value)[15..] == ToLower(value);
    var number := TrimSpace(ToLower(value));
    if Atoi(number).Some? {
      AtoiExactly(number, Atoi(number).value);
    }
    assert (name + value)[|name + value| - 1] == value[|value| - 1];
    assert value[|value| - 1] in value;
  }

  lemma {:induction false} BlockMore(fields: seq<HeaderField>, f: HeaderField, ending: string)
    ensures Block(fields + [f], ending) == Block(fields, ending) + (LineOf(f) + ending)
    decreases |fields|
  {
    if fields == [] {
      assert [] + [f] == [f] && [f][1..] == [];
      assert LineOf(f) + ending + "" == "" + (LineOf(f) + ending);
    } else {
      assert (fields + [f])[1..] == fields[1..] + [f];
      BlockMore(fields[1..], f, ending);
      assert LineOf(fields[0]) + ending + (Block(fields[1..], ending) + (LineOf(f) + ending))
          == LineOf(fields[0]) + ending + Block(fields[1..], ending) + (LineOf(f) + ending);
    }
  }

  lemma {:induction false} BadAfter(fields: seq<HeaderField>, line: string, ending: string, rest: string,
                                    end: ReadError, length: int)
    requires (forall f <- fields :: Legal(f)) && EndsLine(ending)
    requires line != "" && '\n' !in line && !IsLineEnd(line[|line| - 1])
    requires forall length :: HeaderLine(line, length) == None
    ensures ReadHeaders(Block(fields, ending) + (line + ending + rest), end, length) == BadHeader(BadLength, rest)
    decreases |fields|
  {
    hide ReadHeaders, HeaderLine, Legal, LineOf;
    if fields == [] {
      assert Block(fields, ending) + (line + ending + rest) == line + ending + rest;
      ReadsLine(line, ending, rest, end, length);
    } else {
      var f := fields[0];
      var after := Block(fields[1..], ending) + (line + ending + rest);
      assert Block(fields, ending) + (line + ending + rest) == LineOf(f) + ending + after;
      FieldIsLine(f);
      ReadsField(f, length);
      ReadsLine(LineOf(f), ending, after, end, length);
      BadAfter(fields[1..], line, ending, rest, end, if f.Length? then f.n else length);
    }
  }
}
