/** The string operations of the standard library that the parsers lean on. */
module Text {

  /** The Unicode `White_Space` characters. */
  predicate Whitespace(c: char) {
    var v := c as int;
    || 0x09 <= v <= 0x0D
    || v in {0x20, 0x85, 0xA0, 0x1680, 0x2028, 0x2029, 0x202F, 0x205F, 0x3000}
    || 0x2000 <= v <= 0x200A
  }

  predicate Blank(s: string) {
    forall i :: 0 <= i < |s| ==> Whitespace(s[i])
  }

  predicate Trimmed(s: string) {
    s == [] || (!Whitespace(s[0]) && !Whitespace(s[|s| - 1]))
  }

  function TrimStart(s: string): (t: string)
    ensures |t| <= |s| && t == s[|s| - |t|..] && Blank(s[..|s| - |t|])
    ensures t == [] || !Whitespace(t[0])
  {
    if s == [] || !Whitespace(s[0]) then s
    else
      var t := TrimStart(s[1..]);
      assert s[..|s| - |t|] == [s[0]] + s[1..][..|s| - 1 - |t|];
      t
  }

  function TrimEnd(s: string): (t: string)
    ensures |t| <= |s| && t == s[..|t|] && Blank(s[|t|..])
    ensures t == [] || !Whitespace(t[|t| - 1])
  {
    if s == [] || !Whitespace(s[|s| - 1]) then s
    else
      var t := TrimEnd(s[..|s| - 1]);
      assert s[|t|..] == s[..|s| - 1][|t|..] + [s[|s| - 1]];
      t
  }

  function Trim(s: string): (t: string)
    ensures Trimmed(t)
  {
    var t := TrimEnd(TrimStart(s));
    assert t != [] ==> t[0] == TrimStart(s)[0];
    t
  }

  /** Trimming takes off exactly the surrounding white space. */
  lemma TrimIff(left: string, middle: string, right: string)
    requires Blank(left) && Blank(right) && Trimmed(middle)
    ensures Trim(left + middle + right) == middle
  {
    assert left + middle + right == left + (middle + right);
    TrimStartSkips(left, middle + right);
    if middle == [] {
      assert middle + right == right == right + [];
      TrimStartSkips(right, []);
    } else {
      assert (middle + right)[0] == middle[0];
      TrimEndSkips(middle, right);
    }
  }

  lemma {:induction false} TrimStartSkips(left: string, rest: string)
    requires Blank(left)
    ensures TrimStart(left + rest) == TrimStart(rest)
    decreases |left|
  {
    if left == [] {
      assert left + rest == rest;
    } else {
      assert (left + rest)[1..] == left[1..] + rest;
      TrimStartSkips(left[1..], rest);
    }
  }

  lemma {:induction false} TrimEndSkips(rest: string, right: string)
    requires Blank(right)
    ensures TrimEnd(rest + right) == TrimEnd(rest)
    decreases |right|
  {
    if right == [] {
      assert rest + right == rest;
    } else {
      assert (rest + right)[..|rest + right| - 1] == rest + right[..|right| - 1];
      TrimEndSkips(rest, right[..|right| - 1]);
    }
  }

  lemma CutTwice(s: string, t: string, u: string)
    requires |t| <= |s| && t == s[|s| - |t|..]
    requires |u| <= |t| && u == t[..|u|]
    ensures s == s[..|s| - |t|] + u + t[|u|..]
  {
    assert t == u + t[|u|..];
    assert s == s[..|s| - |t|] + t;
  }

  /** What `Trim` removed. */
  lemma TrimSplits(s: string) returns (left: string, right: string)
    ensures Blank(left) && Blank(right) && s == left + Trim(s) + right
  {
    var t := TrimStart(s);
    var u := TrimEnd(t);
    CutTwice(s, t, u);
    left, right := s[..|s| - |t|], t[|u|..];
  }

  lemma TrimAddsNothing(s: string, c: char)
    requires c !in s
    ensures c !in Trim(s)
  {
  }

  /** The first index of a character at or after `from`; the length if there is none. */
  function IndexFrom(s: string, c: char, from: nat): (at: nat)
    requires from <= |s|
    ensures from <= at <= |s|
    ensures at < |s| ==> s[at] == c
    ensures forall i :: from <= i < at ==> s[i] != c
    decreases |s| - from
  {
    if from == |s| || s[from] == c then from else IndexFrom(s, c, from + 1)
  }

  lemma {:induction false} IndexIs(s: string, c: char, at: nat, from: nat)
    requires from <= at <= |s| && (at < |s| ==> s[at] == c) && forall i :: from <= i < at ==> s[i] != c
    ensures IndexFrom(s, c, from) == at
    decreases at - from
  {
  }

  /** Lines end at a newline, which takes one carriage return before it along. */
  function Lines(s: string): seq<string>
    decreases |s|
  {
    if s == [] then []
    else
      var end := IndexFrom(s, '\n', 0);
      if end == |s| then [s]
      else [if 0 < end && s[end - 1] == '\r' then s[..end - 1] else s[..end]] + Lines(s[end + 1..])
  }
}
