/** Log-point messages: literal text with expressions in braces. */
module LogMessage {
  import opened Prelude
  import opened Text

  datatype Part = Literal(text: string) | Expression(source: string)

  type Parts = seq<Part>

  // ----- Parsing

  /** The text between the braces and the text after them. */
  function ParseBraced(afterOpen: string): (braced: Option<(string, string)>)
    ensures braced.Some? ==> |braced.value.1| < |afterOpen|
  {
    var close := IndexFrom(afterOpen, '}', 0);
    if close == |afterOpen| then None
    else
      var source, rest := Trim(afterOpen[..close]), afterOpen[close + 1..];
      if source == [] || (rest != [] && rest[0] == '}') then None else Some((source, rest))
  }

  function LiteralPart(text: string): Parts {
    if text == [] then [] else [Literal(text)]
  }

  /** One round: the literal before the next opening brace, if any, and the braced expression, with
      the text after it. */
  function ParseRound(rest: string, brace: nat): (round: Option<(Parts, string)>)
    requires brace < |rest|
    ensures round.Some? ==> |round.value.1| < |rest|
  {
    if '}' in rest[..brace] then None
    else
      var braced := ParseBraced(rest[brace + 1..]);
      if braced.None? then None
      else Some((LiteralPart(rest[..brace]) + [Expression(braced.value.0)], braced.value.1))
  }

  function Prepended(parts: Parts, more: Option<Parts>): Option<Parts> {
    if more.None? then None else Some(parts + more.value)
  }

  function ParseRest(rest: string): Option<Parts>
    decreases |rest|
  {
    var brace := IndexFrom(rest, '{', 0);
    if brace == |rest| then if '}' in rest then None else Some(LiteralPart(rest))
    else
      var round := ParseRound(rest, brace);
      if round.None? then None else Prepended(round.value.0, ParseRest(round.value.1))
  }

  function Parse(value: string): Option<Parts> {
    if value == [] then None else ParseRest(value)
  }

  method ParseLogMessage(value: string) returns (message: Option<Parts>)
    ensures message == Parse(value)
  {
    if value == [] {
      return None;
    }
    var parts: Parts := [];
    var rest := value;
    PrependNothing(ParseRest(value));
    while true
      invariant Parse(value) == Prepended(parts, ParseRest(rest))
      decreases |rest|
    {
      var brace := IndexFrom(rest, '{', 0);
      if brace == |rest| {
        if '}' in rest {
          return None;
        }
        if rest == [] {
          assert parts + LiteralPart(rest) == parts;
        } else {
          parts := parts + [Literal(rest)];
        }
        return Some(parts);
      }
      var round := ParseRound(rest, brace);
      if round.None? {
        return None;
      }
      PrependTwice(parts, round.value.0, ParseRest(round.value.1));
      parts := parts + round.value.0;
      rest := round.value.1;
    }
  }

  lemma PrependNothing(more: Option<Parts>)
    ensures Prepended([], more) == more
  {
    if more.Some? {
      assert [] + more.value == more.value;
    }
  }

  lemma PrependTwice(first: Parts, second: Parts, more: Option<Parts>)
    ensures Prepended(first, Prepended(second, more)) == Prepended(first + second, more)
  {
    if more.Some? {
      assert first + (second + more.value) == first + second + more.value;
    }
  }

  // ----- What messages mean

  /** A part the parser can produce. */
  predicate Proper(part: Part) {
    match part
    case Literal(text) => text != [] && '{' !in text && '}' !in text
    case Expression(source) => source != [] && Trimmed(source) && '}' !in source
  }

  predicate Canonical(parts: Parts) {
    && (forall i :: 0 <= i < |parts| ==> Proper(parts[i]))
    && (forall i :: 0 < i < |parts| ==> parts[i - 1].Expression? || parts[i].Expression?)
  }

  function PrintPart(part: Part): string {
    match part
    case Literal(text) => text
    case Expression(source) => "{" + source + "}"
  }

  function Print(parts: Parts): string {
    if parts == [] then [] else PrintPart(parts[0]) + Print(parts[1..])
  }

  /** Whether the text is the printed parts, up to white space inside the braces. */
  ghost predicate Renders(parts: Parts, value: string)
    decreases |parts|
  {
    if parts == [] then value == []
    else exists head: string, rest: string :: value == head + rest && RendersOne(parts[0], head) && Renders(parts[1..], rest)
  }

  ghost predicate RendersOne(part: Part, head: string) {
    match part
    case Literal(text) => head == text
    case Expression(source) => exists left: string, right: string :: Padding(source, left, right, head)
  }

  ghost predicate Padding(source: string, left: string, right: string, head: string) {
    Blank(left) && Blank(right) && head == "{" + (left + source + right) + "}"
  }

  // ----- Parsing accepts exactly the rendered canonical messages

  /** An opening brace, a padded expression and its closing brace parse back, unless a stray closing
      brace follows. */
  lemma BracedIsParsed(source: string, head: string, rest: string)
    requires Proper(Expression(source)) && RendersOne(Expression(source), head)
    requires rest == [] || rest[0] != '}'
    ensures head != [] && head[0] == '{' && ParseBraced((head + rest)[1..]) == Some((source, rest))
  {
    var left, right :| Padding(source, left, right, head);
    var inner := left + source + right;
    var after := (head + rest)[1..];
    assert after == inner + "}" + rest;
    assert '}' !in inner by {
      assert forall i :: 0 <= i < |left| ==> Whitespace(left[i]);
      assert forall i :: 0 <= i < |right| ==> Whitespace(right[i]);
    }
    assert after[..|inner|] == inner;
    IndexIs(after, '}', |inner|, 0);
    TrimIff(left, source, right);
    assert after[|inner| + 1..] == rest;
  }

  /** What braced text was parsed from. */
  lemma ParsedIsBraced(afterOpen: string) returns (head: string)
    requires ParseBraced(afterOpen).Some?
    ensures var (source, rest) := ParseBraced(afterOpen).value;
      Proper(Expression(source)) && RendersOne(Expression(source), head) && "{" + afterOpen == head + rest
  {
    var close := IndexFrom(afterOpen, '}', 0);
    var inner := afterOpen[..close];
    var left, right := TrimSplits(inner);
    head := "{" + inner + "}";
    assert Padding(Trim(inner), left, right, head);
    TrimAddsNothing(inner, '}');
    BraceSplits(afterOpen, close);
  }

  lemma BraceSplits(afterOpen: string, close: nat)
    requires close < |afterOpen| && afterOpen[close] == '}'
    ensures "{" + afterOpen == "{" + afterOpen[..close] + "}" + afterOpen[close + 1..]
  {
  }

  lemma RendersStartsWithoutClose(parts: Parts, value: string)
    requires Canonical(parts) && Renders(parts, value)
    ensures value == [] || value[0] != '}'
    ensures parts != [] && parts[0].Expression? ==> value != [] && value[0] == '{'
  {
  }

  lemma RenderedHead(parts: Parts, value: string) returns (head: string, rest: string)
    requires Canonical(parts) && Renders(parts, value) && parts != []
    ensures value == head + rest && Proper(parts[0]) && RendersOne(parts[0], head) && Canonical(parts[1..]) && Renders(parts[1..], rest)
    ensures rest == [] || rest[0] != '}'
    ensures |parts| > 1 && parts[0].Literal? ==> parts[1..][0].Expression?
    ensures |parts| == 1 ==> rest == []
  {
    head, rest :| value == head + rest && RendersOne(parts[0], head) && Renders(parts[1..], rest);
    RendersStartsWithoutClose(parts[1..], rest);
  }

  lemma LoneLiteralParses(text: string)
    requires Proper(Literal(text))
    ensures ParseRest(text) == Some([Literal(text)])
  {
  }

  lemma {:induction false} RenderedParses(parts: Parts, value: string)
    requires Canonical(parts) && Renders(parts, value)
    ensures ParseRest(value) == Some(parts)
    decreases |parts|
  {
    if parts != [] {
      var head, rest := RenderedHead(parts, value);
      if parts[0].Expression? {
        RenderedParses(parts[1..], rest);
        ParsesOn(value, [], parts[0].source, head, rest, parts[1..]);
        ExpressionLeads(parts);
      } else if |parts| == 1 {
        assert value == head && parts == [parts[0]];
        LoneLiteralParses(value);
      } else {
        var more := parts[1..];
        var braced, after := RenderedHead(more, rest);
        RenderedParses(more[1..], after);
        ParsesOn(value, parts[0].text, more[0].source, braced, after, more[1..]);
        LiteralLeads(parts);
      }
    }
  }

  lemma ExpressionLeads(parts: Parts)
    requires parts != [] && parts[0].Expression?
    ensures parts == LiteralPart([]) + [Expression(parts[0].source)] + parts[1..]
  {
  }

  lemma LiteralLeads(parts: Parts)
    requires |parts| > 1 && parts[0].Literal? && parts[0].text != [] && parts[1..][0].Expression?
    ensures parts == LiteralPart(parts[0].text) + [Expression(parts[1..][0].source)] + parts[1..][1..]
  {
  }

  /** One round and then the rest, for a literal that may be empty. */
  lemma ParsesOn(value: string, text: string, source: string, head: string, rest: string, more: Parts)
    requires '{' !in text && '}' !in text && value == text + (head + rest)
    requires Proper(Expression(source)) && RendersOne(Expression(source), head)
    requires (rest == [] || rest[0] != '}') && ParseRest(rest) == Some(more)
    ensures ParseRest(value) == Some(LiteralPart(text) + [Expression(source)] + more)
  {
    RoundIs(value, text, source, head, rest);
    RoundThenRest(value, |text|, LiteralPart(text) + [Expression(source)], rest, more);
  }

  lemma AroundBrace(text: string, braced: string, value: string)
    requires braced != [] && value == text + braced
    ensures |text| < |value| && value[..|text|] == text && value[|text|] == braced[0] && value[|text| + 1..] == braced[1..]
    ensures forall i :: 0 <= i < |text| ==> value[i] == text[i]
  {
  }

  lemma RoundThenRest(value: string, brace: nat, round: Parts, rest: string, more: Parts)
    requires brace < |value| && IndexFrom(value, '{', 0) == brace && ParseRound(value, brace) == Some((round, rest))
    requires ParseRest(rest) == Some(more)
    ensures ParseRest(value) == Some(round + more)
  {
  }

  /** One round of the parser takes one rendered literal and expression. */
  lemma RoundIs(value: string, text: string, source: string, head: string, rest: string)
    requires '{' !in text && '}' !in text && value == text + (head + rest)
    requires Proper(Expression(source)) && RendersOne(Expression(source), head)
    requires rest == [] || rest[0] != '}'
    ensures |text| < |value| && IndexFrom(value, '{', 0) == |text|
    ensures ParseRound(value, |text|) == Some((LiteralPart(text) + [Expression(source)], rest))
  {
    BracedIsParsed(source, head, rest);
    AroundBrace(text, head + rest, value);
    IndexIs(value, '{', |text|, 0);
  }

  lemma {:induction false} ParsedRenders(value: string, parts: Parts)
    requires ParseRest(value) == Some(parts)
    ensures Canonical(parts) && Renders(parts, value)
    decreases |value|
  {
    var brace := IndexFrom(value, '{', 0);
    if brace == |value| {
      LiteralRenders(value, [], []);
      assert LiteralPart(value) + [] == parts && value + [] == value;
    } else {
      var (round, rest) := ParseRound(value, brace).value;
      ParsedRenders(rest, ParseRest(rest).value);
      RoundRenders(value, brace, ParseRest(rest).value);
    }
  }

  lemma RoundRenders(value: string, brace: nat, more: Parts)
    requires brace < |value| && value[brace] == '{' && '{' !in value[..brace] && ParseRound(value, brace).Some?
    requires Canonical(more) && Renders(more, ParseRound(value, brace).value.1)
    ensures var parts := ParseRound(value, brace).value.0 + more;
      Canonical(parts) && Renders(parts, value)
  {
    var text := value[..brace];
    var (source, rest) := ParseBraced(value[brace + 1..]).value;
    var head := ParsedIsBraced(value[brace + 1..]);
    BracedRenders(source, head, more, rest);
    LiteralRenders(text, [Expression(source)] + more, head + rest);
    AtBrace(value, brace);
    Regroup(LiteralPart(text), [Expression(source)], more);
  }

  lemma AtBrace(value: string, brace: nat)
    requires brace < |value| && value[brace] == '{'
    ensures value == value[..brace] + ("{" + value[brace + 1..])
  {
  }

  lemma Regroup(first: Parts, second: Parts, third: Parts)
    ensures first + second + third == first + (second + third)
  {
  }

  lemma BracedRenders(source: string, head: string, more: Parts, rest: string)
    requires Proper(Expression(source)) && RendersOne(Expression(source), head)
    requires Canonical(more) && Renders(more, rest)
    ensures Canonical([Expression(source)] + more) && Renders([Expression(source)] + more, head + rest)
  {
  }

  lemma LiteralRenders(text: string, parts: Parts, value: string)
    requires '{' !in text && '}' !in text
    requires Canonical(parts) && Renders(parts, value) && (parts == [] || parts[0].Expression?)
    ensures Canonical(LiteralPart(text) + parts) && Renders(LiteralPart(text) + parts, text + value)
  {
    var all := LiteralPart(text) + parts;
    if text == [] {
      assert all == parts && text + value == value;
    } else {
      assert all[1..] == parts;
      assert RendersOne(all[0], text);
    }
  }

  /** A message parses to `parts` exactly when those are canonical and the message is their print, up
      to white space inside braces. */
  lemma ParseIff(value: string, parts: Parts)
    ensures Parse(value) == Some(parts) <==> parts != [] && Canonical(parts) && Renders(parts, value)
  {
    if Parse(value) == Some(parts) {
      ParsedRenders(value, parts);
    }
    if parts != [] && Canonical(parts) && Renders(parts, value) {
      RenderedParses(parts, value);
      NonEmptyRenders(parts, value);
    }
  }

  lemma NonEmptyRenders(parts: Parts, value: string)
    requires parts != [] && Canonical(parts) && Renders(parts, value)
    ensures value != []
  {
  }

  lemma {:induction false} PrintRenders(parts: Parts)
    ensures Renders(parts, Print(parts))
    decreases |parts|
  {
    if parts != [] {
      PrintRenders(parts[1..]);
      var head := PrintPart(parts[0]);
      if parts[0].Expression? {
        var source := parts[0].source;
        assert [] + source + [] == source;
        assert Padding(source, [], [], head);
      }
      assert RendersOne(parts[0], head);
    }
  }

  /** Parsing undoes printing. */
  lemma ParseOfPrint(parts: Parts)
    requires parts != [] && Canonical(parts)
    ensures Parse(Print(parts)) == Some(parts)
  {
    PrintRenders(parts);
    ParseIff(Print(parts), parts);
  }
}
