/** Captured run output, cut at a byte ceiling without splitting a character. */
module CappedOutput {
  import opened Utf8

  const OUTPUT_CAP := 64 * 1024

  function Size(text: string): nat {
    ByteAt(text, |text|)
  }

  /** What is kept of everything written: the characters that lie wholly below the ceiling. */
  function Kept(written: string): string {
    written[..Floor(written, OUTPUT_CAP)]
  }

  function Concat(chunks: seq<string>): string {
    if chunks == [] then [] else Concat(chunks[..|chunks| - 1]) + chunks[|chunks| - 1]
  }

  lemma SizeOfConcat(first: string, second: string, k: nat)
    requires k <= |second|
    ensures ByteAt(first + second, |first| + k) == Size(first) + ByteAt(second, k)
  {
    ByteAtSplits(first + second, |first|, |first| + k);
    ByteAtOfPrefix(first, second, |first|);
    assert (first + second)[|first|..] == second;
  }

  lemma KeptWhole(text: string)
    requires Size(text) <= OUTPUT_CAP
    ensures Kept(text) == text
  {
  }

  /** What was cut once stays cut at the same place. */
  lemma KeptOnceFull(first: string, second: string)
    requires Size(first) > OUTPUT_CAP
    ensures Kept(first + second) == Kept(first) && Size(first + second) > OUTPUT_CAP
  {
    var k := Floor(first, OUTPUT_CAP);
    ByteAtOfPrefix(first, second, k);
    if k < |first| {
      ByteAtOfPrefix(first, second, k + 1);
    }
    FloorIs(first + second, OUTPUT_CAP, k);
    SizeOfConcat(first, second, |second|);
    assert first + second == first + second[..|second|];
  }

  /** The write that crosses the ceiling contributes what fits in the room left. */
  lemma KeptAcrossTheCeiling(first: string, second: string)
    requires Size(first) <= OUTPUT_CAP < Size(first) + Size(second)
    ensures Kept(first + second) == first + second[..Floor(second, OUTPUT_CAP - Size(first))]
  {
    var k := Floor(second, OUTPUT_CAP - Size(first));
    SizeOfConcat(first, second, k);
    if k < |second| {
      SizeOfConcat(first, second, k + 1);
    }
    FloorIs(first + second, OUTPUT_CAP, |first| + k);
  }

  /** The kept text is the longest prefix, by whole characters, of at most `OUTPUT_CAP` bytes. */
  lemma KeptIsLongest(written: string, prefix: nat)
    requires prefix <= |written| && Size(written[..prefix]) <= OUTPUT_CAP
    ensures Size(Kept(written)) <= OUTPUT_CAP && Kept(written) <= written
    ensures prefix <= |Kept(written)|
  {
    var k := Floor(written, OUTPUT_CAP);
    ByteAtOfPrefix(written[..k], written[k..], k);
    ByteAtOfPrefix(written[..prefix], written[prefix..], prefix);
    assert written[..k] + written[k..] == written == written[..prefix] + written[prefix..];
    if k < prefix {
      ByteAtGrows(written, k + 1, prefix);
    }
  }

  /** A cut text fills the ceiling up to at most three bytes. */
  lemma CutTextIsNearlyFull(written: string)
    requires Size(written) > OUTPUT_CAP
    ensures OUTPUT_CAP - 3 <= Size(Kept(written)) <= OUTPUT_CAP && Kept(written) != written
  {
    var k := Floor(written, OUTPUT_CAP);
    ByteAtOfPrefix(written[..k], written[k..], k);
    assert written[..k] + written[k..] == written;
  }

  class CappedOutput {
    var text: string
    var truncated: bool
    ghost var written: string

    ghost predicate Valid()
      reads this
    {
      text == Kept(written) && (truncated <==> Size(written) > OUTPUT_CAP)
    }

    constructor ()
      ensures Valid() && written == []
    {
      text, truncated, written := [], false, [];
    }

    method Write(chunk: string)
      requires Valid()
      modifies this
      ensures Valid() && written == old(written) + chunk
    {
      ghost var before := written;
      written := before + chunk;
      if truncated {
        KeptOnceFull(before, chunk);
        return;
      }
      KeptWhole(before);
      EncodedLength(text);
      EncodedLength(chunk);
      SizeOfConcat(before, chunk, |chunk|);
      var remaining := OUTPUT_CAP - |Encode(text)|;
      if |Encode(chunk)| <= remaining {
        text := text + chunk;
        KeptWhole(written);
        return;
      }
      KeptAcrossTheCeiling(before, chunk);
      var end := FloorCharBoundary(chunk, remaining);
      FloorOfBoundary(chunk, Floor(chunk, remaining));
      text := text + chunk[..Floor(chunk, end)];
      truncated := true;
    }

    method IntoParts() returns (kept: string, cut: bool)
      requires Valid()
      ensures kept == Kept(written) && (cut <==> Size(written) > OUTPUT_CAP)
    {
      kept, cut := text, truncated;
    }
  }

  /** Whatever the splitting into writes, the capture is that of the whole output. */
  method Capture(chunks: seq<string>) returns (kept: string, cut: bool)
    ensures kept == Kept(Concat(chunks)) && (cut <==> Size(Concat(chunks)) > OUTPUT_CAP)
  {
    var output := new CappedOutput();
    for i := 0 to |chunks|
      invariant output.Valid() && output.written == Concat(chunks[..i])
    {
      assert chunks[..i + 1][..i] == chunks[..i];
      output.Write(chunks[i]);
    }
    assert chunks[..|chunks|] == chunks;
    kept, cut := output.IntoParts();
  }
}
