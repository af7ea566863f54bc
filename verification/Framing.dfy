/** `Content-Length` framing (LSP 3.17, Base Protocol, Header Part): the watcher that scans the
    server's input for an exit notification, and the debug adapter's reader and writer. A message
    body is its bytes; whether it is an exit notification, and what JSON it holds, are parameters. */
module Framing {
  import opened Prelude
  import opened Utf8
  import opened Text
  import opened Decimal

  const LENGTH_KEY := "Content-Length:"
  const CR: Byte := 13
  const LF: Byte := 10
  const TERMINATOR: Bytes := [CR, LF, CR, LF]

  predicate OccursAt(haystack: Bytes, needle: Bytes, i: nat) {
    i + |needle| <= |haystack| && haystack[i..i + |needle|] == needle
  }

  lemma TokenStarts(haystack: Bytes, needle: Bytes, i: nat)
    requires |needle| > 1 && OccursAt(haystack, needle, i)
    ensures haystack[i] == needle[0] && haystack[i + 1] == needle[1]
  {
    var occurrence := haystack[i..i + |needle|];
    assert occurrence[0] == haystack[i] && occurrence[1] == haystack[i + 1];
  }

  /** The first occurrence at or after `from`. */
  function FindFrom(haystack: Bytes, needle: Bytes, from: nat): (found: Option<nat>)
    ensures found.Some? ==> from <= found.value && OccursAt(haystack, needle, found.value)
    decreases |haystack| + 1 - from
  {
    if |haystack| < from + |needle| then None
    else if OccursAt(haystack, needle, from) then Some(from)
    else FindFrom(haystack, needle, from + 1)
  }

  /** A place where the needle occurs and none before it does is the one found. */
  lemma {:induction false} FindIsFirst(haystack: Bytes, needle: Bytes, from: nat, at: nat)
    requires from <= at && OccursAt(haystack, needle, at)
    requires forall i :: from <= i < at ==> !OccursAt(haystack, needle, i)
    ensures FindFrom(haystack, needle, from) == Some(at)
    decreases at - from
  {
    if from < at {
      FindIsFirst(haystack, needle, from + 1, at);
    }
  }

  function FindSubslice(haystack: Bytes, needle: Bytes): Option<nat> {
    FindFrom(haystack, needle, 0)
  }

  /** The rest of the first line that starts with the length key. */
  function FirstLength(lines: seq<string>): Option<string> {
    if lines == [] then None
    else if LENGTH_KEY <= lines[0] then Some(lines[0][|LENGTH_KEY|..])
    else FirstLength(lines[1..])
  }

  /** The declared body length of a complete header. */
  function DeclaredLength(header: Bytes): Option<nat> {
    var text := Decode(header);
    if text.None? then None
    else
      var length := FirstLength(Lines(text.value));
      if length.None? then None else ParseUsize(Trim(length.value))
  }

  /** The length of the header at the front of the buffer and the body length it declares. */
  function ParseHeader(buffer: Bytes): (parsed: Option<(nat, nat)>)
    ensures parsed.Some? ==> |TERMINATOR| <= parsed.value.0 <= |buffer|
  {
    var at := FindSubslice(buffer, TERMINATOR);
    if at.None? then None else WithLength(buffer[..at.value + |TERMINATOR|])
  }

  function WithLength(header: Bytes): (parsed: Option<(nat, nat)>)
    ensures parsed.Some? ==> parsed.value.0 == |header|
  {
    var length := DeclaredLength(header);
    if length.None? then None else Some((|header|, length.value))
  }

  // ----- The exit watcher

  const EXIT_TOKEN: Bytes := [101, 120, 105, 116]

  predicate IsExitNotification(body: Bytes, parsesAsExit: Bytes -> bool) {
    FindSubslice(body, EXIT_TOKEN).Some? && parsesAsExit(body)
  }

  /** Nothing is found exactly when the needle does not occur. */
  lemma {:induction false} NotFoundIff(haystack: Bytes, needle: Bytes, from: nat)
    ensures FindFrom(haystack, needle, from).None? <==> (forall i :: from <= i ==> !OccursAt(haystack, needle, i))
    decreases |haystack| + 1 - from
  {
    if |haystack| >= from + |needle| && !OccursAt(haystack, needle, from) {
      NotFoundIff(haystack, needle, from + 1);
    }
  }

  /** The guard drops a notification the parser would accept exactly when the token is not in its
      bytes. */
  lemma GuardDropsIff(body: Bytes, parsesAsExit: Bytes -> bool)
    requires parsesAsExit(body)
    ensures !IsExitNotification(body, parsesAsExit) <==> (forall i: nat :: !OccursAt(body, EXIT_TOKEN, i))
  {
    NotFoundIff(body, EXIT_TOKEN, 0);
  }

  /** `{"method":"exit"}` with the `e` of the method escaped. */
  const ESCAPED_EXIT: Bytes := [123, 34, 109, 101, 116, 104, 111, 100, 34, 58, 34, 92, 117, 48, 48, 54, 53, 120, 105, 116, 34, 125]

  /** JSON may escape any character, so a parser takes these bytes for an exit notification; the
      guard drops them. */
  lemma EscapedExitIsDropped(parsesAsExit: Bytes -> bool)
    requires parsesAsExit(ESCAPED_EXIT)
    ensures !IsExitNotification(ESCAPED_EXIT, parsesAsExit)
  {
    forall i: nat ensures !OccursAt(ESCAPED_EXIT, EXIT_TOKEN, i) {
      if OccursAt(ESCAPED_EXIT, EXIT_TOKEN, i) {
        TokenStarts(ESCAPED_EXIT, EXIT_TOKEN, i);
        assert false;
      }
    }
    GuardDropsIff(ESCAPED_EXIT, parsesAsExit);
  }

  /** What a scan inspected, what it keeps, and whether it ended the process. */
  datatype Watch = Watch(inspected: seq<Bytes>, leftover: Bytes, exited: bool)

  /** The body that a parsed header announces and the bytes after it, once all of it is there. */
  function Cut(buffer: Bytes, parsed: Option<(nat, nat)>): (next: Option<(Bytes, Bytes)>)
    ensures next.Some? ==> parsed.Some? && |next.value.1| + parsed.value.0 <= |buffer|
  {
    if parsed.None? || |buffer| < parsed.value.0 + parsed.value.1 then None
    else
      var (header, length) := parsed.value;
      Some((buffer[header..header + length], buffer[header + length..]))
  }

  /** The body of the first complete frame and the bytes after it. */
  function NextFrame(buffer: Bytes): (next: Option<(Bytes, Bytes)>)
    ensures next.Some? ==> |next.value.1| < |buffer|
  {
    Cut(buffer, ParseHeader(buffer))
  }

  function Scan(buffer: Bytes, isExit: Bytes -> bool): Watch
    decreases |buffer|
  {
    var next := NextFrame(buffer);
    if next.None? then Watch([], buffer, false)
    else
      var (body, rest) := next.value;
      if IsExitNotification(body, isExit) then Watch([body], [], true) else After([body], Scan(rest, isExit))
  }

  /** A scan that followed `earlier` frames. */
  function After(earlier: seq<Bytes>, watch: Watch): Watch {
    watch.(inspected := earlier + watch.inspected)
  }

  lemma AfterAfter(first: seq<Bytes>, second: seq<Bytes>, watch: Watch)
    ensures After(first, After(second, watch)) == After(first + second, watch)
  {
  }

  lemma ScanStep(earlier: seq<Bytes>, buffer: Bytes, isExit: Bytes -> bool)
    requires NextFrame(buffer).Some?
    ensures var (body, rest) := NextFrame(buffer).value;
      After(earlier, Scan(buffer, isExit)) ==
      if IsExitNotification(body, isExit) then Watch(earlier + [body], [], true)
      else After(earlier + [body], Scan(rest, isExit))
  {
    var (body, rest) := NextFrame(buffer).value;
    AfterAfter(earlier, [body], Scan(rest, isExit));
  }

  /** One more chunk of input; nothing follows the end of the process. */
  function Fed(watch: Watch, chunk: Bytes, isExit: Bytes -> bool): Watch {
    if watch.exited then watch else After(watch.inspected, Scan(watch.leftover + chunk, isExit))
  }

  function FedAll(chunks: seq<Bytes>, isExit: Bytes -> bool): Watch {
    if chunks == [] then Watch([], [], false)
    else Fed(FedAll(chunks[..|chunks| - 1], isExit), chunks[|chunks| - 1], isExit)
  }

  function Concat(chunks: seq<Bytes>): Bytes {
    if chunks == [] then [] else Concat(chunks[..|chunks| - 1]) + chunks[|chunks| - 1]
  }

  class ExitWatcher {
    var buffer: Bytes
    var exited: bool
    ghost var inspected: seq<Bytes>

    ghost function View(): Watch
      reads this
    {
      Watch(inspected, buffer, exited)
    }

    constructor ()
      ensures View() == Watch([], [], false)
    {
      buffer, exited, inspected := [], false, [];
    }

    /** The bytes one read delivered. */
    method Read(chunk: Bytes, isExit: Bytes -> bool)
      requires !exited
      modifies this
      ensures View() == Fed(old(View()), chunk, isExit)
    {
      buffer := buffer + chunk;
      ScanBuffer(isExit);
    }

    method ScanBuffer(isExit: Bytes -> bool)
      requires !exited
      modifies this
      ensures View() == After(old(inspected), Scan(old(buffer), isExit))
    {
      while true
        invariant !exited
        invariant After(inspected, Scan(buffer, isExit)) == After(old(inspected), Scan(old(buffer), isExit))
        decreases |buffer|
      {
        var next := NextFrame(buffer);
        if next.None? {
          return;
        }
        var (body, rest) := next.value;
        ScanStep(inspected, buffer, isExit);
        inspected := inspected + [body];
        if IsExitNotification(body, isExit) {
          buffer := [];
          exited := true;
          return;
        }
        buffer := rest;
      }
    }
  }

  // ----- Splitting the input into chunks

  lemma {:induction false} FindStays(haystack: Bytes, more: Bytes, needle: Bytes, from: nat)
    requires FindFrom(haystack, needle, from).Some?
    ensures FindFrom(haystack + more, needle, from) == FindFrom(haystack, needle, from)
    decreases |haystack| + 1 - from
  {
    var whole := haystack + more;
    assert whole[from..from + |needle|] == haystack[from..from + |needle|];
    if !OccursAt(haystack, needle, from) {
      FindStays(haystack, more, needle, from + 1);
    }
  }

  lemma FrontStays(buffer: Bytes, more: Bytes, length: nat)
    requires length <= |buffer|
    ensures (buffer + more)[..length] == buffer[..length]
  {
  }

  /** A complete header is read the same however much follows it. */
  lemma HeaderStays(buffer: Bytes, more: Bytes)
    requires FindSubslice(buffer, TERMINATOR).Some?
    ensures ParseHeader(buffer + more) == ParseHeader(buffer)
  {
    FindStays(buffer, more, TERMINATOR, 0);
    FrontStays(buffer, more, FindSubslice(buffer, TERMINATOR).value + |TERMINATOR|);
  }

  lemma CutStays(buffer: Bytes, more: Bytes, parsed: Option<(nat, nat)>)
    requires Cut(buffer, parsed).Some?
    ensures Cut(buffer + more, parsed) == Some((Cut(buffer, parsed).value.0, Cut(buffer, parsed).value.1 + more))
  {
    var (header, length) := parsed.value;
    assert (buffer + more)[header..header + length] == buffer[header..header + length];
    assert (buffer + more)[header + length..] == buffer[header + length..] + more;
  }

  lemma FrameStays(buffer: Bytes, more: Bytes)
    requires NextFrame(buffer).Some?
    ensures NextFrame(buffer + more) == Some((NextFrame(buffer).value.0, NextFrame(buffer).value.1 + more))
  {
    HeaderStays(buffer, more);
    CutStays(buffer, more, ParseHeader(buffer));
  }

  /** Scanning what arrived first and then the rest is scanning it all at once. */
  lemma {:induction false} ScanResumes(first: Bytes, second: Bytes, isExit: Bytes -> bool)
    ensures Scan(first + second, isExit) == Fed(Scan(first, isExit), second, isExit)
    decreases |first|
  {
    var next := NextFrame(first);
    if next.None? {
      assert Scan(first, isExit) == Watch([], first, false);
    } else {
      var (body, rest) := next.value;
      FrameStays(first, second);
      ScanResumes(rest, second, isExit);
      var scanned := Scan(rest, isExit);
      AfterAfter([body], scanned.inspected, Scan(scanned.leftover + second, isExit));
    }
  }

  /** However the input is split into reads, the watcher inspects the same frames, keeps the same
      leftover and ends the process at the same frame as on the whole input. */
  lemma {:induction false} ChunkingIsInvisible(chunks: seq<Bytes>, isExit: Bytes -> bool)
    ensures FedAll(chunks, isExit) == Scan(Concat(chunks), isExit)
    decreases |chunks|
  {
    if chunks != [] {
      ChunkingIsInvisible(chunks[..|chunks| - 1], isExit);
      ScanResumes(Concat(chunks[..|chunks| - 1]), chunks[|chunks| - 1], isExit);
    }
  }

  // ----- The debug adapter's reader and writer

  /** The bytes up to and including the next newline, or all that is left. */
  function LineEnd(input: Bytes, from: nat): (end: nat)
    requires from <= |input|
    ensures from <= end <= |input|
    ensures from < |input| ==> from < end
    ensures end < |input| ==> input[end - 1] == LF
    ensures forall i :: from <= i < end - 1 ==> input[i] != LF
    decreases |input| - from
  {
    if from == |input| then from else if input[from] == LF then from + 1 else LineEnd(input, from + 1)
  }

  function TrimLineEnd(line: string): string {
    if line != [] && line[|line| - 1] in {'\r', '\n'} then TrimLineEnd(line[..|line| - 1]) else line
  }

  /** The header block: the last declared length, and the input after the blank line. */
  function ReadHeader(input: Bytes, length: Option<nat>): (read: Option<(Option<nat>, Bytes)>)
    ensures read.Some? ==> |read.value.1| < |input|
    decreases |input|
  {
    if input == [] then None
    else
      var end := LineEnd(input, 0);
      var line := Decode(input[..end]);
      if line.None? then None
      else
        var trimmed := TrimLineEnd(line.value);
        if trimmed == [] then Some((length, input[end..]))
        else ReadHeader(input[end..],
                        if LENGTH_KEY <= trimmed then ParseUsize(Trim(trimmed[|LENGTH_KEY|..])) else length)
  }

  /** One message and the input after it. */
  function ReadFrame(input: Bytes): (read: Option<(Bytes, Bytes)>)
    ensures read.Some? ==> |read.value.1| < |input|
  {
    var header := ReadHeader(input, None);
    if header.None? || header.value.0.None? then None
    else
      var (length, rest) := (header.value.0.value, header.value.1);
      if |rest| < length then None else Some((rest[..length], rest[length..]))
  }

  function HeaderText(length: nat): string {
    LENGTH_KEY + " " + Print(length) + "\r\n\r\n"
  }

  function Frame(body: Bytes): Bytes {
    Encode(HeaderText(|body|)) + body
  }

  /** A byte stream between two processes: written at the end, read from the front. */
  class Stream {
    var bytes: Bytes

    constructor ()
      ensures bytes == []
    {
      bytes := [];
    }

    method WriteMessage<J>(message: J, encode: J -> Bytes)
      modifies this
      ensures bytes == old(bytes) + Frame(encode(message))
    {
      var body := encode(message);
      bytes := bytes + Encode(HeaderText(|body|));
      bytes := bytes + body;
    }

    method ReadMessage<J>(decode: Bytes -> Option<J>) returns (message: Option<J>)
      modifies this
      ensures var read := ReadFrame(old(bytes));
        if read.None? then message == None else message == decode(read.value.0) && bytes == read.value.1
    {
      var contentLength: Option<nat> := None;
      ghost var header := ReadHeader(bytes, None);
      while true
        invariant ReadHeader(bytes, contentLength) == header
        decreases |bytes|
      {
        if bytes == [] {
          return None;
        }
        var end := LineEnd(bytes, 0);
        var line := Decode(bytes[..end]);
        ghost var before := bytes;
        bytes := bytes[end..];
        if line.None? {
          return None;
        }
        var trimmed := TrimLineEnd(line.value);
        if trimmed == [] {
          break;
        }
        if LENGTH_KEY <= trimmed {
          contentLength := ParseUsize(Trim(trimmed[|LENGTH_KEY|..]));
        }
      }
      if contentLength.None? {
        return None;
      }
      if |bytes| < contentLength.value {
        bytes := [];
        return None;
      }
      var body := bytes[..contentLength.value];
      bytes := bytes[contentLength.value..];
      message := decode(body);
    }
  }
}
