/** Framed messages read back as they were written, at the boundaries the exit watcher finds. */
module FramingTheorems {
  import opened Prelude
  import opened Utf8
  import opened Text
  import opened Decimal
  import opened Framing

  predicate Ascii(s: string) {
    forall i :: 0 <= i < |s| ==> s[i] as int < 0x80
  }

  lemma {:induction false} EncodeAscii(s: string)
    requires Ascii(s)
    ensures |Encode(s)| == |s| && forall i :: 0 <= i < |s| ==> Encode(s)[i] == s[i] as int
    decreases |s|
  {
    if s != [] {
      EncodeAscii(s[..|s| - 1]);
    }
  }

  predicate PlainLine(s: string) {
    Ascii(s) && '\r' !in s && '\n' !in s
  }

  function Ended(line: string): string {
    line + "\r\n"
  }

  /** The header without its line ends. */
  function LengthLine(length: nat): string {
    LENGTH_KEY + " " + Print(length)
  }

  /** A written header is its length line and a blank one. The blank line is a parameter here and below,
      and not a literal, so that the solver does not unfold the encoding of its line end. */
  lemma HeaderLines(length: nat, blank: string)
    requires blank == []
    ensures PlainLine(LengthLine(length))
    ensures LENGTH_KEY <= LengthLine(length)
    ensures LengthLine(length)[|LENGTH_KEY|..] == " " + Print(length)
    ensures HeaderText(length) == Ended(LengthLine(length)) + Ended(blank)
  {
  }

  /** The declared length survives the decimal text and the space before it. */
  lemma LengthReadsBack(length: nat)
    requires length <= USIZE_MAX
    ensures ParseUsize(Trim(" " + Print(length))) == Some(length)
  {
    var digits := Print(length);
    assert Digit(digits[0]) && Digit(digits[|digits| - 1]);
    TrimIff(" ", digits, []);
    assert " " + digits + [] == " " + digits;
    ParseOfPrint(length);
  }

  // ----- The watcher's side

  lemma FirstLineOf(line: string, rest: string)
    requires PlainLine(line)
    ensures var lines := Lines(Ended(line) + rest); lines != [] && lines[0] == line
  {
    var s := Ended(line) + rest;
    IndexIs(s, '\n', |line| + 1, 0);
    assert s[..|line|] == line;
  }

  lemma TextDeclares(text: string, line: string, length: nat)
    requires var lines := Lines(text); lines != [] && lines[0] == line
    requires LENGTH_KEY <= line && ParseUsize(Trim(line[|LENGTH_KEY|..])) == Some(length)
    ensures DeclaredLength(Encode(text)) == Some(length)
  {
    DecodeOfEncode(text);
  }

  lemma OccurrenceStarts(haystack: Bytes, needle: Bytes, i: nat)
    requires needle != [] && i < |haystack|
    ensures OccursAt(haystack, needle, i) ==> haystack[i] == needle[0]
  {
  }

  lemma TerminatorAfter(line: string, encoded: Bytes, rest: Bytes)
    requires PlainLine(line) && |encoded| == |line| + 4
    requires forall i :: 0 <= i < |line| ==> encoded[i] == line[i] as int
    requires encoded[|line|..] == TERMINATOR
    ensures FindSubslice(encoded + rest, TERMINATOR) == Some(|line|)
  {
    var buffer := encoded + rest;
    assert buffer[|line|..|line| + 4] == encoded[|line|..];
    forall i | 0 <= i < |line| ensures !OccursAt(buffer, TERMINATOR, i) {
      assert line[i] in line;
      OccurrenceStarts(buffer, TERMINATOR, i);
    }
    FindIsFirst(buffer, TERMINATOR, 0, |line|);
  }

  lemma HeaderEnds(line: string, blank: string)
    requires PlainLine(line) && blank == []
    ensures var encoded := Encode(Ended(line) + Ended(blank));
      && |encoded| == |line| + 4 && encoded[|line|..] == TERMINATOR
      && forall i :: 0 <= i < |line| ==> encoded[i] == line[i] as int
  {
    EncodeAscii(Ended(line) + Ended(blank));
  }

  lemma ParsedHeader(buffer: Bytes, header: Bytes, at: nat, length: nat)
    requires FindSubslice(buffer, TERMINATOR) == Some(at) && header <= buffer && |header| == at + 4
    requires DeclaredLength(header) == Some(length)
    ensures ParseHeader(buffer) == Some((|header|, length))
  {
    assert buffer[..|header|] == header;
  }

  lemma CutAtHeader(header: Bytes, body: Bytes, rest: Bytes)
    ensures Cut(header + (body + rest), Some((|header|, |body|))) == Some((body, rest))
  {
    var buffer := header + (body + rest);
    assert buffer[|header|..|header| + |body|] == body && buffer[|header| + |body|..] == rest;
  }

  lemma WrittenHeaderParses(length: nat, rest: Bytes, blank: string)
    requires length <= USIZE_MAX && blank == []
    ensures var header := Encode(HeaderText(length));
      ParseHeader(header + rest) == Some((|header|, length))
  {
    var text, line := HeaderText(length), LengthLine(length);
    HeaderLines(length, blank);
    assert DeclaredLength(Encode(text)) == Some(length) by {
      LengthReadsBack(length);
      FirstLineOf(line, Ended(blank));
      TextDeclares(text, line, length);
    }
    HeaderEnds(line, blank);
    var header := Encode(text);
    TerminatorAfter(line, header, rest);
    ParsedHeader(header + rest, header, |line|, length);
  }

  lemma FrameAfterHeader(buffer: Bytes, header: Bytes, body: Bytes, rest: Bytes)
    requires buffer == header + (body + rest) && ParseHeader(buffer) == Some((|header|, |body|))
    ensures NextFrame(buffer) == Some((body, rest))
  {
    CutAtHeader(header, body, rest);
  }

  lemma FrameSplits(body: Bytes, rest: Bytes)
    ensures Frame(body) + rest == Encode(HeaderText(|body|)) + (body + rest)
  {
  }

  lemma NextFrameIsTheWritten(body: Bytes, rest: Bytes)
    requires |body| <= USIZE_MAX
    ensures NextFrame(Frame(body) + rest) == Some((body, rest))
  {
    FrameSplits(body, rest);
    WrittenHeaderParses(|body|, body + rest, []);
    FrameAfterHeader(Frame(body) + rest, Encode(HeaderText(|body|)), body, rest);
  }

  // ----- The reader's side

  lemma {:induction false} LineEndIs(input: Bytes, end: nat, from: nat)
    requires from < end <= |input| && input[end - 1] == LF && forall i :: from <= i < end - 1 ==> input[i] != LF
    ensures LineEnd(input, from) == end
    decreases end - from
  {
  }

  lemma LineEndIsTrimmed(line: string)
    requires PlainLine(line)
    ensures TrimLineEnd(Ended(line)) == line
  {
    var inner := line + "\r";
    assert Ended(line) == inner + "\n" && inner[..|line|] == line;
    assert (inner + "\n")[..|inner|] == inner;
    assert line != [] ==> line[|line| - 1] in line;
    assert TrimLineEnd(inner) == TrimLineEnd(line) == line;
  }

  /** One line of a header block and what follows it. */
  lemma LineIsRead(line: string, rest: Bytes)
    requires PlainLine(line)
    ensures var input := Encode(Ended(line)) + rest;
      var end := LineEnd(input, 0);
      input != [] && Decode(input[..end]) == Some(Ended(line)) && input[end..] == rest
  {
    var text := Ended(line);
    EncodeAscii(text);
    DecodeOfEncode(text);
    var input := Encode(text) + rest;
    LineEndIs(input, |text|, 0);
    assert input[..|text|] == Encode(text);
  }

  /** A line that only ends the block, and one that sets the length. */
  lemma BlankLineIsRead(blank: string, tail: Bytes, length: Option<nat>)
    requires blank == []
    ensures ReadHeader(Encode(Ended(blank)) + tail, length) == Some((length, tail))
  {
    LineIsRead(blank, tail);
    LineEndIsTrimmed(blank);
  }

  lemma LengthLineIsRead(line: string, rest: Bytes, length: nat)
    requires PlainLine(line) && LENGTH_KEY <= line && ParseUsize(Trim(line[|LENGTH_KEY|..])) == Some(length)
    ensures ReadHeader(Encode(Ended(line)) + rest, None) == ReadHeader(rest, Some(length))
  {
    LineIsRead(line, rest);
    LineEndIsTrimmed(line);
  }

  // Headers with more lines than the writer's.

  function Block(lines: seq<string>): Bytes {
    if lines == [] then [] else Encode(Ended(lines[0])) + Block(lines[1..])
  }

  predicate PlainLines(lines: seq<string>) {
    forall i :: 0 <= i < |lines| ==> PlainLine(lines[i]) && lines[i] != []
  }

  predicate NoLength(lines: seq<string>) {
    forall i :: 0 <= i < |lines| ==> !(LENGTH_KEY <= lines[i])
  }

  lemma HeaderLineIsRead(line: string, rest: Bytes, length: Option<nat>)
    requires PlainLine(line) && line != []
    ensures ReadHeader(Encode(Ended(line)) + rest, length)
         == ReadHeader(rest, if LENGTH_KEY <= line then ParseUsize(Trim(line[|LENGTH_KEY|..])) else length)
  {
    LineIsRead(line, rest);
    LineEndIsTrimmed(line);
  }

  lemma BlockStarts(lines: seq<string>, rest: Bytes)
    requires lines != []
    ensures Block(lines) + rest == Encode(Ended(lines[0])) + (Block(lines[1..]) + rest)
  {
  }

  /** Lines other than length lines are ignored. */
  lemma {:induction false} OtherLinesAreIgnored(lines: seq<string>, blank: string, tail: Bytes, length: Option<nat>)
    requires blank == [] && PlainLines(lines) && NoLength(lines)
    ensures ReadHeader(Block(lines) + (Encode(Ended(blank)) + tail), length) == Some((length, tail))
    decreases |lines|
  {
    var rest := Encode(Ended(blank)) + tail;
    if lines == [] {
      assert Block(lines) + rest == rest;
      BlankLineIsRead(blank, tail, length);
    } else {
      BlockStarts(lines, rest);
      HeaderLineIsRead(lines[0], Block(lines[1..]) + rest, length);
      OtherLinesAreIgnored(lines[1..], blank, tail, length);
    }
  }

  /** Whatever earlier lines declare, reading goes on after them. */
  lemma {:induction false} BlockIsRead(lines: seq<string>, rest: Bytes, length: Option<nat>) returns (declared: Option<nat>)
    requires PlainLines(lines)
    ensures ReadHeader(Block(lines) + rest, length) == ReadHeader(rest, declared)
    decreases |lines|
  {
    if lines == [] {
      assert Block(lines) + rest == rest;
      declared := length;
    } else {
      BlockStarts(lines, rest);
      HeaderLineIsRead(lines[0], Block(lines[1..]) + rest, length);
      declared := BlockIsRead(lines[1..], rest, if LENGTH_KEY <= lines[0] then ParseUsize(Trim(lines[0][|LENGTH_KEY|..])) else length);
    }
  }

  /** Among the length lines of a header the last decides, even if it does not parse. */
  lemma LastLengthDecides(before: seq<string>, line: string, after: seq<string>, blank: string, tail: Bytes)
    requires blank == [] && PlainLines(before) && PlainLines(after) && PlainLine(line)
    requires LENGTH_KEY <= line && NoLength(after)
    ensures ReadHeader(Block(before) + (Encode(Ended(line)) + (Block(after) + (Encode(Ended(blank)) + tail))), None)
         == Some((ParseUsize(Trim(line[|LENGTH_KEY|..])), tail))
  {
    var rest := Block(after) + (Encode(Ended(blank)) + tail);
    var declared := BlockIsRead(before, Encode(Ended(line)) + rest, None);
    HeaderLineIsRead(line, rest, declared);
    OtherLinesAreIgnored(after, blank, tail, ParseUsize(Trim(line[|LENGTH_KEY|..])));
  }

  /** For the watcher the first one does. */
  lemma {:induction false} FirstLengthDecides(lines: seq<string>, at: nat)
    requires at < |lines| && LENGTH_KEY <= lines[at] && NoLength(lines[..at])
    ensures FirstLength(lines) == Some(lines[at][|LENGTH_KEY|..])
  {
    if at > 0 {
      assert !(LENGTH_KEY <= lines[..at][0]);
      assert lines[1..][..at - 1] == lines[..at][1..];
      FirstLengthDecides(lines[1..], at - 1);
    }
  }

  lemma BodyIsRead(input: Bytes, body: Bytes, rest: Bytes)
    requires ReadHeader(input, None) == Some((Some(|body|), body + rest))
    ensures ReadFrame(input) == Some((body, rest))
  {
    assert (body + rest)[..|body|] == body && (body + rest)[|body|..] == rest;
  }

  lemma BlockSplits(line: string, blank: string, rest: Bytes)
    ensures Encode(Ended(line) + Ended(blank)) + rest == Encode(Ended(line)) + (Encode(Ended(blank)) + rest)
  {
    EncodeConcat(Ended(line), Ended(blank));
  }

  lemma WrittenHeaderIsRead(length: nat, rest: Bytes, blank: string)
    requires length <= USIZE_MAX && blank == []
    ensures ReadHeader(Encode(HeaderText(length)) + rest, None) == Some((Some(length), rest))
  {
    var line := LengthLine(length);
    HeaderLines(length, blank);
    assert LENGTH_KEY <= line && ParseUsize(Trim(line[|LENGTH_KEY|..])) == Some(length) by {
      LengthReadsBack(length);
    }
    BlockSplits(line, blank, rest);
    var second := Encode(Ended(blank)) + rest;
    LengthLineIsRead(line, second, length);
    BlankLineIsRead(blank, rest, Some(length));
  }

  lemma ReadFrameIsTheWritten(body: Bytes, rest: Bytes)
    requires |body| <= USIZE_MAX
    ensures ReadFrame(Frame(body) + rest) == Some((body, rest))
  {
    FrameSplits(body, rest);
    WrittenHeaderIsRead(|body|, body + rest, []);
    BodyIsRead(Frame(body) + rest, body, rest);
  }

  // ----- Whole streams

  function Written(bodies: seq<Bytes>): Bytes {
    if bodies == [] then [] else Frame(bodies[0]) + Written(bodies[1..])
  }

  predicate Sendable(bodies: seq<Bytes>) {
    forall i :: 0 <= i < |bodies| ==> |bodies[i]| <= USIZE_MAX
  }

  /** The bodies up to and including the first exit notification. */
  function UpToExit(bodies: seq<Bytes>, isExit: Bytes -> bool): seq<Bytes> {
    if bodies == [] then []
    else if IsExitNotification(bodies[0], isExit) then [bodies[0]]
    else [bodies[0]] + UpToExit(bodies[1..], isExit)
  }

  /** Both sides cut the next message out of a written stream at the same place. */
  lemma ReaderAndWatcherAgree(body: Bytes, rest: Bytes)
    requires |body| <= USIZE_MAX
    ensures ReadFrame(Frame(body) + rest) == NextFrame(Frame(body) + rest) == Some((body, rest))
  {
    ReadFrameIsTheWritten(body, rest);
    NextFrameIsTheWritten(body, rest);
  }

  /** Over a stream of written messages the watcher inspects exactly the bodies written, in order,
      up to the first exit notification, and keeps nothing back. */
  lemma {:induction false} WatcherSeesWhatWasWritten(bodies: seq<Bytes>, isExit: Bytes -> bool)
    requires Sendable(bodies)
    ensures Scan(Written(bodies), isExit) ==
      Watch(UpToExit(bodies, isExit), [], exists i :: 0 <= i < |bodies| && IsExitNotification(bodies[i], isExit))
    decreases |bodies|
  {
    if bodies == [] {
      assert NextFrame([]).None?;
    } else {
      NextFrameIsTheWritten(bodies[0], Written(bodies[1..]));
      WatcherSeesWhatWasWritten(bodies[1..], isExit);
      if exists i :: 0 <= i < |bodies| && IsExitNotification(bodies[i], isExit) {
        var i :| 0 <= i < |bodies| && IsExitNotification(bodies[i], isExit);
        if i > 0 {
          assert bodies[1..][i - 1] == bodies[i];
        }
      }
    }
  }

  /** Whatever reads deliver a written stream, every message is inspected, and the process ends at
      the first exit notification and not before. */
  lemma WatcherFindsExitInAnyChunking(bodies: seq<Bytes>, chunks: seq<Bytes>, isExit: Bytes -> bool)
    requires Sendable(bodies) && Concat(chunks) == Written(bodies)
    ensures FedAll(chunks, isExit).inspected == UpToExit(bodies, isExit)
    ensures FedAll(chunks, isExit).exited <==> exists i :: 0 <= i < |bodies| && IsExitNotification(bodies[i], isExit)
  {
    ChunkingIsInvisible(chunks, isExit);
    WatcherSeesWhatWasWritten(bodies, isExit);
  }

  lemma {:induction false} WrittenConcat(first: seq<Bytes>, second: seq<Bytes>)
    ensures Written(first + second) == Written(first) + Written(second)
    decreases |first|
  {
    if first == [] {
      assert first + second == second;
    } else {
      assert (first + second)[1..] == first[1..] + second;
      WrittenConcat(first[1..], second);
    }
  }

  function Bodies<J>(messages: seq<J>, encode: J -> Bytes): (bodies: seq<Bytes>)
    ensures |bodies| == |messages|
    ensures forall i :: 0 <= i < |messages| ==> bodies[i] == encode(messages[i])
  {
    seq(|messages|, i requires 0 <= i < |messages| => encode(messages[i]))
  }

  lemma WritesNext(bodies: seq<Bytes>, i: nat)
    requires i < |bodies|
    ensures Written(bodies[..i + 1]) == Written(bodies[..i]) + Frame(bodies[i])
  {
    var one := [bodies[i]];
    assert bodies[..i + 1] == bodies[..i] + one;
    WrittenConcat(bodies[..i], one);
    assert Written(one) == Frame(one[0]) + Written(one[1..]);
  }

  lemma ReadsNext(bodies: seq<Bytes>, i: nat)
    requires Sendable(bodies) && i < |bodies|
    ensures ReadFrame(Written(bodies[i..])) == Some((bodies[i], Written(bodies[i + 1..])))
  {
    assert bodies[i..][1..] == bodies[i + 1..];
    ReadFrameIsTheWritten(bodies[i], Written(bodies[i + 1..]));
  }

  method WriteAll<J>(stream: Stream, messages: seq<J>, encode: J -> Bytes)
    requires stream.bytes == []
    modifies stream
    ensures stream.bytes == Written(Bodies(messages, encode))
  {
    ghost var bodies := Bodies(messages, encode);
    for i := 0 to |messages|
      invariant stream.bytes == Written(bodies[..i])
    {
      stream.WriteMessage(messages[i], encode);
      WritesNext(bodies, i);
    }
    assert bodies[..|messages|] == bodies;
  }

  method ReadAll<J>(stream: Stream, count: nat, decode: Bytes -> Option<J>, ghost bodies: seq<Bytes>) returns (received: seq<J>)
    requires Sendable(bodies) && stream.bytes == Written(bodies) && count == |bodies|
    requires forall i :: 0 <= i < |bodies| ==> decode(bodies[i]).Some?
    modifies stream
    ensures |received| == count && forall i :: 0 <= i < count ==> decode(bodies[i]) == Some(received[i])
    ensures stream.bytes == []
  {
    received := [];
    assert bodies[0..] == bodies;
    for i := 0 to count
      invariant stream.bytes == Written(bodies[i..])
      invariant |received| == i && forall k :: 0 <= k < i ==> decode(bodies[k]) == Some(received[k])
    {
      var message := ReadOne(stream, decode, bodies, i);
      received := received + [message];
    }
  }

  method ReadOne<J>(stream: Stream, decode: Bytes -> Option<J>, ghost bodies: seq<Bytes>, ghost i: nat) returns (message: J)
    requires Sendable(bodies) && i < |bodies| && stream.bytes == Written(bodies[i..])
    requires decode(bodies[i]).Some?
    modifies stream
    ensures stream.bytes == Written(bodies[i + 1..]) && decode(bodies[i]) == Some(message)
  {
    ReadsNext(bodies, i);
    var read := stream.ReadMessage(decode);
    message := read.value;
  }

  /** Messages written one after another read back in order, and then the stream is at its end. */
  method Exchange<J>(messages: seq<J>, encode: J -> Bytes, decode: Bytes -> Option<J>) returns (received: seq<J>, end: Option<J>)
    requires forall i :: 0 <= i < |messages| ==> decode(encode(messages[i])) == Some(messages[i])
    requires Sendable(Bodies(messages, encode))
    ensures received == messages && end.None?
  {
    var stream := new Stream();
    WriteAll(stream, messages, encode);
    received := ReadAll(stream, |messages|, decode, Bodies(messages, encode));
    end := stream.ReadMessage(decode);
  }
}
