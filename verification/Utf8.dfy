/** UTF-8 (section 3 of RFC 3629): texts are sequences of Unicode scalar values, and a byte offset
    counts into their encoding. */
module Utf8 {
  import opened Prelude

  type Byte = b: nat | b < 0x100

  type Bytes = seq<Byte>

  function Width(c: char): (width: nat)
    ensures 1 <= width <= 4
  {
    var v := c as int;
    if v < 0x80 then 1 else if v < 0x800 then 2 else if v < 0x1_0000 then 3 else 4
  }

  predicate Continuation(b: Byte) {
    0x80 <= b < 0xC0
  }

  /** The continuation byte carrying the low six bits. */
  function Low(v: nat): (b: Byte)
    ensures Continuation(b)
  {
    0x80 + v % 0x40
  }

  function EncodeChar(c: char): (bytes: Bytes)
    ensures |bytes| == Width(c)
    ensures !Continuation(bytes[0])
    ensures forall i :: 1 <= i < |bytes| ==> Continuation(bytes[i])
    ensures c as int < 0x80 ==> bytes == [c as int]
    ensures c as int >= 0x80 ==> forall i :: 0 <= i < |bytes| ==> 0x80 <= bytes[i]
  {
    var v := c as int;
    if v < 0x80 then [v]
    else if v < 0x800 then [0xC0 + v / 0x40, Low(v)]
    else if v < 0x1_0000 then [0xE0 + v / 0x40 / 0x40, Low(v / 0x40), Low(v)]
    else [0xF0 + v / 0x40 / 0x40 / 0x40, Low(v / 0x40 / 0x40), Low(v / 0x40), Low(v)]
  }

  function Encode(text: string): Bytes {
    if text == [] then [] else Encode(text[..|text| - 1]) + EncodeChar(text[|text| - 1])
  }

  /** The byte offset of the `k`-th character boundary. */
  function ByteAt(text: string, k: nat): (at: nat)
    requires k <= |text|
    ensures k <= at
  {
    if k == 0 then 0 else ByteAt(text, k - 1) + Width(text[k - 1])
  }

  /** The last boundary at or before byte `b`, looking at the first `k` only. */
  function FloorFrom(text: string, b: nat, k: nat): (floor: nat)
    requires k <= |text|
    ensures floor <= k && ByteAt(text, floor) <= b
    ensures floor < k ==> b < ByteAt(text, floor + 1)
  {
    if k == 0 || ByteAt(text, k) <= b then k else FloorFrom(text, b, k - 1)
  }

  function Floor(text: string, b: nat): (floor: nat)
    ensures floor <= |text| && ByteAt(text, floor) <= b
    ensures floor < |text| ==> b < ByteAt(text, floor + 1)
  {
    FloorFrom(text, b, |text|)
  }

  ghost predicate Boundary(text: string, b: nat) {
    exists k :: 0 <= k <= |text| && ByteAt(text, k) == b
  }

  /** The byte test the standard library makes for a character boundary. */
  predicate IsCharBoundary(bytes: Bytes, b: nat) {
    b == 0 || b == |bytes| || (b < |bytes| && !Continuation(bytes[b]))
  }

  // ----- Offsets

  lemma {:induction false} ByteAtGrows(text: string, i: nat, j: nat)
    requires i <= j <= |text|
    ensures ByteAt(text, i) + (j - i) <= ByteAt(text, j)
    decreases j
  {
    if i < j {
      ByteAtGrows(text, i, j - 1);
    }
  }

  lemma FloorOfBoundary(text: string, k: nat)
    requires k <= |text|
    ensures Floor(text, ByteAt(text, k)) == k
  {
    var floor := Floor(text, ByteAt(text, k));
    if floor < k {
      ByteAtGrows(text, floor + 1, k);
    } else {
      ByteAtGrows(text, k, floor);
    }
  }

  /** A boundary with the limit before the next one is the floor of that limit. */
  lemma FloorIs(text: string, limit: nat, k: nat)
    requires k <= |text| && ByteAt(text, k) <= limit
    requires k < |text| ==> limit < ByteAt(text, k + 1)
    ensures Floor(text, limit) == k
  {
    var floor := Floor(text, limit);
    if floor < k {
      ByteAtGrows(text, floor + 1, k);
    } else if k < floor {
      ByteAtGrows(text, k + 1, floor);
    }
  }

  /** A boundary between a byte and its floor is that floor. */
  lemma NoBoundaryAboveFloor(text: string, b: nat, other: nat)
    requires Boundary(text, other) && ByteAt(text, Floor(text, b)) <= other <= b
    ensures other == ByteAt(text, Floor(text, b))
  {
    var k := Floor(text, b);
    var j :| 0 <= j <= |text| && ByteAt(text, j) == other;
    if k < j {
      ByteAtGrows(text, k + 1, j);
    } else if j < k {
      ByteAtGrows(text, j, k);
    }
  }

  lemma {:induction false} ByteAtOfPrefix(text: string, more: string, k: nat)
    requires k <= |text|
    ensures ByteAt(text + more, k) == ByteAt(text, k)
  {
    if k > 0 {
      ByteAtOfPrefix(text, more, k - 1);
    }
  }

  lemma {:induction false} ByteAtSplits(text: string, i: nat, j: nat)
    requires i <= j <= |text|
    ensures ByteAt(text, j) == ByteAt(text, i) + ByteAt(text[i..], j - i)
    decreases j
  {
    if i < j {
      ByteAtSplits(text, i, j - 1);
    }
  }

  // ----- Encoding

  lemma {:induction false} EncodeConcat(first: string, second: string)
    ensures Encode(first + second) == Encode(first) + Encode(second)
    decreases |second|
  {
    if second == [] {
      assert first + second == first;
    } else {
      var init := second[..|second| - 1];
      assert (first + second)[..|first + second| - 1] == first + init;
      EncodeConcat(first, init);
    }
  }

  lemma {:induction false} EncodedLength(text: string)
    ensures |Encode(text)| == ByteAt(text, |text|)
    decreases |text|
  {
    if text != [] {
      var init := text[..|text| - 1];
      EncodedLength(init);
      ByteAtOfPrefix(init, [text[|text| - 1]], |init|);
      assert init + [text[|text| - 1]] == text;
    }
  }

  /** Where one character's bytes lie in the whole encoding. */
  lemma EncodedSlice(text: string, k: nat)
    requires k < |text|
    ensures ByteAt(text, k + 1) <= |Encode(text)|
    ensures Encode(text)[ByteAt(text, k)..ByteAt(text, k + 1)] == EncodeChar(text[k])
  {
    var init, rest := text[..k + 1], text[k + 1..];
    assert text == init + rest && init[..k] == text[..k];
    EncodeConcat(init, rest);
    EncodedLength(text[..k]);
    ByteAtOfPrefix(text[..k], text[k..], k);
    assert text[..k] + text[k..] == text;
    assert Encode(text) == Encode(text[..k]) + EncodeChar(text[k]) + Encode(rest);
  }

  /** Within the bytes of character `k`, only the first starts a character. */
  lemma ByteOfChar(text: string, k: nat, b: nat)
    requires k < |text| && ByteAt(text, k) <= b < ByteAt(text, k + 1)
    ensures b < |Encode(text)|
    ensures Encode(text)[b] == EncodeChar(text[k])[b - ByteAt(text, k)]
  {
    EncodedSlice(text, k);
    assert Encode(text)[b] == Encode(text)[ByteAt(text, k)..ByteAt(text, k + 1)][b - ByteAt(text, k)];
  }

  /** The byte test recognises exactly the offsets at which a character starts or the text ends. */
  lemma CharBoundaryIff(text: string, b: nat)
    ensures IsCharBoundary(Encode(text), b) <==> Boundary(text, b)
    ensures b <= |Encode(text)| ==> (IsCharBoundary(Encode(text), b) <==> ByteAt(text, Floor(text, b)) == b)
  {
    EncodedLength(text);
    var k := Floor(text, b);
    if k < |text| {
      ByteOfChar(text, k, b);
    }
    forall j | 0 <= j <= |text| && ByteAt(text, j) == b
      ensures k == j && b <= |Encode(text)|
    {
      FloorOfBoundary(text, j);
      ByteAtGrows(text, j, |text|);
    }
    if b == 0 {
      assert ByteAt(text, 0) == b;
    }
  }

  /** The largest boundary at or before `b`, found by stepping back over the bytes. */
  method FloorCharBoundary(text: string, b: nat) returns (floor: nat)
    requires b <= |Encode(text)|
    ensures floor == ByteAt(text, Floor(text, b))
  {
    floor := b;
    var bytes := Encode(text);
    while floor > 0 && !IsCharBoundary(bytes, floor)
      invariant ByteAt(text, Floor(text, b)) <= floor <= b
    {
      CharBoundaryIff(text, floor);
      floor := floor - 1;
    }
    CharBoundaryIff(text, floor);
    assert ByteAt(text, 0) == 0;
    NoBoundaryAboveFloor(text, b, floor);
  }

  // ----- Decoding

  predicate Scalar(v: int) {
    0 <= v < 0xD800 || 0xE000 <= v < 0x11_0000
  }

  /** The value so far extended by a continuation byte's six bits. */
  function Extend(high: nat, b: Byte): (v: nat)
    requires Continuation(b)
    ensures v / 0x40 == high && Low(v) == b
  {
    high * 0x40 + (b as int - 0x80)
  }

  /** The character a scalar value names, refusing surrogates and values that fit in fewer bytes. */
  function CharOf(v: int, least: int, width: nat): (c: Option<(char, nat)>)
    ensures c.Some? ==> Scalar(v) && least <= v && c.value == (v as char, width)
  {
    if v < least || !Scalar(v) then None else Some((v as char, width))
  }

  function Decode2(bytes: Bytes): (first: Option<(char, nat)>)
    requires bytes != [] && 0xC0 <= bytes[0] < 0xE0
    ensures first.Some? ==> first.value.1 == 2 <= |bytes| && bytes[..2] == EncodeChar(first.value.0)
  {
    if |bytes| < 2 || !Continuation(bytes[1]) then None
    else CharOf(Extend(bytes[0] as int - 0xC0, bytes[1]), 0x80, 2)
  }

  function Decode3(bytes: Bytes): (first: Option<(char, nat)>)
    requires bytes != [] && 0xE0 <= bytes[0] < 0xF0
    ensures first.Some? ==> first.value.1 == 3 <= |bytes| && bytes[..3] == EncodeChar(first.value.0)
  {
    if |bytes| < 3 || !Continuation(bytes[1]) || !Continuation(bytes[2]) then None
    else CharOf(Extend(Extend(bytes[0] as int - 0xE0, bytes[1]), bytes[2]), 0x800, 3)
  }

  function Decode4(bytes: Bytes): (first: Option<(char, nat)>)
    requires bytes != [] && 0xF0 <= bytes[0] < 0xF8
    ensures first.Some? ==> first.value.1 == 4 <= |bytes| && bytes[..4] == EncodeChar(first.value.0)
  {
    if |bytes| < 4 || !Continuation(bytes[1]) || !Continuation(bytes[2]) || !Continuation(bytes[3]) then None
    else CharOf(Extend(Extend(Extend(bytes[0] as int - 0xF0, bytes[1]), bytes[2]), bytes[3]), 0x1_0000, 4)
  }

  /** The first character and its width; `None` for a malformed, overlong or surrogate sequence. */
  function DecodeFirst(bytes: Bytes): (first: Option<(char, nat)>)
    requires bytes != []
    ensures first.Some? ==> 1 <= first.value.1 <= |bytes| && bytes[..first.value.1] == EncodeChar(first.value.0)
  {
    var lead := bytes[0];
    if lead < 0x80 then Some((lead as char, 1))
    else if lead < 0xC0 then None
    else if lead < 0xE0 then Decode2(bytes)
    else if lead < 0xF0 then Decode3(bytes)
    else if lead < 0xF8 then Decode4(bytes)
    else None
  }

  function Decode(bytes: Bytes): Option<string> {
    if bytes == [] then Some([])
    else
      var first := DecodeFirst(bytes);
      if first.None? then None
      else
        var rest := Decode(bytes[first.value.1..]);
        if rest.None? then None else Some([first.value.0] + rest.value)
  }

  lemma DecodeFirstOfEncoded(c: char, rest: Bytes)
    ensures DecodeFirst(EncodeChar(c) + rest) == Some((c, Width(c)))
  {
  }

  lemma {:induction false} DecodeOfEncode(text: string)
    ensures Decode(Encode(text)) == Some(text)
    decreases |text|
  {
    if text != [] {
      var c, rest := text[0], text[1..];
      assert text == [c] + rest;
      EncodeConcat([c], rest);
      assert Encode([c]) == EncodeChar(c);
      DecodeFirstOfEncoded(c, Encode(rest));
      assert Encode(text)[Width(c)..] == Encode(rest);
      DecodeOfEncode(rest);
    }
  }

  /** Decoding accepts exactly the encodings of texts. */
  lemma {:induction false} DecodeIff(bytes: Bytes, text: string)
    ensures Decode(bytes) == Some(text) <==> bytes == Encode(text)
    decreases |bytes|
  {
    DecodeOfEncode(text);
    if bytes != [] && Decode(bytes) == Some(text) {
      var (c, width) := DecodeFirst(bytes).value;
      DecodeIff(bytes[width..], text[1..]);
      assert text == [c] + text[1..];
      EncodeConcat([c], text[1..]);
      assert Encode([c]) == EncodeChar(c);
      assert bytes == bytes[..width] + bytes[width..];
    }
  }
}
