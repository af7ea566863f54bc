/** UTF-16 (section 2.1 of RFC 2781), the units an editor counts columns in. */
module Utf16 {
  import opened Prelude

  type Unit = u: nat | u < 0x10000

  /** A character beyond the first 2^16 takes a pair of surrogates. */
  function EncodeChar(c: char): (units: seq<Unit>)
    ensures 1 <= |units| <= 2
  {
    var v := c as int;
    if v < 0x10000 then [v]
    else
      var high: Unit, low: Unit := 0xD800 + (v - 0x10000) / 0x400, 0xDC00 + (v - 0x10000) % 0x400;
      [high, low]
  }

  function Encode(text: string): seq<Unit> {
    if text == [] then [] else Encode(text[..|text| - 1]) + EncodeChar(text[|text| - 1])
  }

  predicate Surrogate(u: Unit) { 0xD800 <= u < 0xE000 }

  /** The last character of a sequence of units, and how many units it takes. */
  function DecodeLast(units: seq<Unit>): (last: Option<(char, nat)>)
    requires units != []
    ensures last.Some? ==> 1 <= last.value.1 <= |units|
  {
    var n := |units|;
    var low: int := units[n - 1];
    if !Surrogate(low) then Some((low as char, 1))
    else if n < 2 || low < 0xDC00 || !(0xD800 <= units[n - 2] < 0xDC00) then None
    else
      var high: int := units[n - 2];
      var v: int := 0x10000 + (high - 0xD800) * 0x400 + (low - 0xDC00);
      Some((v as char, 2))
  }

  function Decode(units: seq<Unit>): Option<string> {
    if units == [] then Some([])
    else
      var last := DecodeLast(units);
      if last.None? then None
      else
        var before := Decode(units[..|units| - last.value.1]);
        if before.None? then None else Some(before.value + [last.value.0])
  }

  lemma DecodeLastOfEncoded(before: seq<Unit>, c: char)
    ensures DecodeLast(before + EncodeChar(c)) == Some((c, |EncodeChar(c)|))
  {
    var v, units := c as int, before + EncodeChar(c);
    if v >= 0x10000 {
      assert units[|units| - 2] == EncodeChar(c)[0] && units[|units| - 1] == EncodeChar(c)[1];
      assert (v - 0x10000) / 0x400 * 0x400 + (v - 0x10000) % 0x400 == v - 0x10000;
    }
  }

  lemma DecodeOfOneMore(before: seq<Unit>, text: string, c: char)
    requires Decode(before) == Some(text)
    ensures Decode(before + EncodeChar(c)) == Some(text + [c])
  {
    var units := before + EncodeChar(c);
    DecodeLastOfEncoded(before, c);
    assert units[..|units| - |EncodeChar(c)|] == before;
  }

  lemma EncodeOfOneMore(text: string, c: char)
    ensures Encode(text + [c]) == Encode(text) + EncodeChar(c)
  {
    assert (text + [c])[..|text|] == text;
  }

  predicate RoundTrips(text: string) { Decode(Encode(text)) == Some(text) }

  lemma OneMoreRoundTrips(text: string, c: char)
    requires RoundTrips(text)
    ensures RoundTrips(text + [c])
  {
    DecodeOfOneMore(Encode(text), text, c);
    EncodeOfOneMore(text, c);
  }

  lemma {:induction false} EveryTextRoundTrips(text: string)
    ensures RoundTrips(text)
    decreases |text|
  {
    if text == [] {
      assert Encode(text) == [];
    } else {
      EveryTextRoundTrips(text[..|text| - 1]);
      OneMoreRoundTrips(text[..|text| - 1], text[|text| - 1]);
      assert text[..|text| - 1] + [text[|text| - 1]] == text;
    }
  }

  /** Decoding undoes encoding. */
  lemma DecodeOfEncode(text: string)
    ensures Decode(Encode(text)) == Some(text)
  {
    EveryTextRoundTrips(text);
  }
}
