/** Semantic-token deltas (LSP 3.17, Semantic Tokens) and the cache of the streams they refer to. */
module SemanticTokens {
  import opened Prelude
  import opened Paths
  import opened Decimal

  const U32_SIZE := 0x1_0000_0000
  const UINTS_PER_TOKEN := 5

  datatype Token = Token(deltaLine: nat, deltaStart: nat, length: nat, tokenType: nat, modifiers: nat)

  type Tokens = seq<Token>

  /** One edit of the flattened array; `data` is absent for a pure deletion. */
  datatype Edit = Edit(start: nat, deleteCount: nat, data: Option<Tokens>)

  // ----- The edits

  /** How many tokens from `from` on are equal pairwise. */
  function PrefixFrom(previous: Tokens, current: Tokens, from: nat): (count: nat)
    requires from <= |previous| && from <= |current|
    ensures from <= count <= |previous| && count <= |current|
    ensures forall i :: from <= i < count ==> previous[i] == current[i]
    ensures count < |previous| && count < |current| ==> previous[count] != current[count]
    decreases |previous| - from
  {
    if from == |previous| || from == |current| || previous[from] != current[from] then from
    else PrefixFrom(previous, current, from + 1)
  }

  function CommonPrefix(previous: Tokens, current: Tokens): nat {
    PrefixFrom(previous, current, 0)
  }

  function FromEnd(tokens: Tokens, i: nat): Token
    requires i < |tokens|
  {
    tokens[|tokens| - 1 - i]
  }

  /** How many tokens are equal pairwise counting from the ends, from the `from`-th on. */
  function SuffixFrom(previous: Tokens, current: Tokens, limit: nat, from: nat): (count: nat)
    requires from <= limit <= |previous| && limit <= |current|
    ensures from <= count <= limit
    ensures forall i :: from <= i < count ==> FromEnd(previous, i) == FromEnd(current, i)
    ensures count < limit ==> FromEnd(previous, count) != FromEnd(current, count)
    decreases limit - from
  {
    if from == limit || FromEnd(previous, from) != FromEnd(current, from) then from
    else SuffixFrom(previous, current, limit, from + 1)
  }

  function CommonSuffix(previous: Tokens, current: Tokens, limit: nat): nat
    requires limit <= |previous| && limit <= |current|
  {
    SuffixFrom(previous, current, limit, 0)
  }

  /** A token count as an offset into the flattened array, in 32-bit arithmetic. */
  function Scaled(count: nat): nat {
    count % U32_SIZE * UINTS_PER_TOKEN % U32_SIZE
  }

  function Suffix(previous: Tokens, current: Tokens): (suffix: nat)
    ensures var prefix := CommonPrefix(previous, current);
      prefix + suffix <= |previous| && prefix + suffix <= |current|
  {
    var prefix := CommonPrefix(previous, current);
    var unmatched := (if |previous| <= |current| then |previous| else |current|) - prefix;
    CommonSuffix(previous[prefix..], current[prefix..], unmatched)
  }

  function Removed(previous: Tokens, current: Tokens): Tokens {
    previous[CommonPrefix(previous, current)..|previous| - Suffix(previous, current)]
  }

  function Inserted(previous: Tokens, current: Tokens): Tokens {
    current[CommonPrefix(previous, current)..|current| - Suffix(previous, current)]
  }

  function DeltaEdits(previous: Tokens, current: Tokens): seq<Edit> {
    var removed, inserted := Removed(previous, current), Inserted(previous, current);
    if removed == [] && inserted == [] then []
    else
      [Edit(Scaled(CommonPrefix(previous, current)), Scaled(|removed|), if inserted == [] then None else Some(inserted))]
  }

  // ----- What a client does with them

  function Uints(t: Token): seq<nat> {
    [t.deltaLine, t.deltaStart, t.length, t.tokenType, t.modifiers]
  }

  function Flatten(tokens: Tokens): (uints: seq<nat>)
    ensures |uints| == UINTS_PER_TOKEN * |tokens|
  {
    if tokens == [] then [] else Uints(tokens[0]) + Flatten(tokens[1..])
  }

  /** The five numbers of the `k`-th token, in the order LSP gives them. */
  lemma {:induction false} FlattenAt(tokens: Tokens, k: nat)
    requires k < |tokens|
    ensures var at, t := UINTS_PER_TOKEN * k, tokens[k];
            Flatten(tokens)[at..at + UINTS_PER_TOKEN] == [t.deltaLine, t.deltaStart, t.length, t.tokenType, t.modifiers]
  {
    if k > 0 {
      var at := UINTS_PER_TOKEN * k;
      FlattenAt(tokens[1..], k - 1);
      assert Flatten(tokens)[at..at + UINTS_PER_TOKEN]
          == Flatten(tokens[1..])[at - UINTS_PER_TOKEN..at];
    }
  }

  /** Apply one edit to the array; `None` if it reaches past the end. */
  function Splice(uints: seq<nat>, edit: Edit): Option<seq<nat>> {
    if |uints| < edit.start + edit.deleteCount then None
    else
      Some(uints[..edit.start] + Flatten(if edit.data.Some? then edit.data.value else [])
           + uints[edit.start + edit.deleteCount..])
  }

  /** Edits all refer to the original array; the server sends at most one. */
  function ApplyEdits(uints: seq<nat>, edits: seq<Edit>): Option<seq<nat>>
    requires |edits| <= 1
  {
    if edits == [] then Some(uints) else Splice(uints, edits[0])
  }

  /** Streams whose flattened form 32-bit offsets can address. */
  predicate Addressable(tokens: Tokens) {
    UINTS_PER_TOKEN * |tokens| < U32_SIZE
  }

  lemma {:induction false} FlattenConcat(first: Tokens, second: Tokens)
    ensures Flatten(first + second) == Flatten(first) + Flatten(second)
    decreases |first|
  {
    if first == [] {
      assert first + second == second;
    } else {
      assert (first + second)[1..] == first[1..] + second;
      FlattenConcat(first[1..], second);
    }
  }

  /** A sequence is its first part, its middle and its last part. */
  lemma ThreeParts(tokens: Tokens, i: nat, j: nat)
    requires i <= j <= |tokens|
    ensures tokens == tokens[..i] + tokens[i..j] + tokens[j..]
  {
  }

  lemma Middles(previous: Tokens, current: Tokens)
    ensures var prefix, suffix := CommonPrefix(previous, current), Suffix(previous, current);
      && previous == previous[..prefix] + Removed(previous, current) + previous[|previous| - suffix..]
      && current == previous[..prefix] + Inserted(previous, current) + previous[|previous| - suffix..]
  {
    var prefix, suffix := CommonPrefix(previous, current), Suffix(previous, current);
    ThreeParts(previous, prefix, |previous| - suffix);
    ThreeParts(current, prefix, |current| - suffix);
    TailsAgree(previous, current, prefix, suffix);
  }

  /** The common prefix and suffix read off the whole streams. */
  lemma TailsAgree(previous: Tokens, current: Tokens, prefix: nat, suffix: nat)
    requires prefix == CommonPrefix(previous, current) && suffix == Suffix(previous, current)
    ensures previous[..prefix] == current[..prefix]
    ensures previous[|previous| - suffix..] == current[|current| - suffix..]
  {
    SuffixOfTails(previous, current, prefix, suffix);
    var p, c := previous[|previous| - suffix..], current[|current| - suffix..];
    forall k | 0 <= k < suffix
      ensures p[k] == c[k]
    {
      assert FromEnd(previous, suffix - 1 - k) == FromEnd(current, suffix - 1 - k);
    }
  }

  lemma SuffixOfTails(previous: Tokens, current: Tokens, prefix: nat, suffix: nat)
    requires prefix + suffix <= |previous| && prefix + suffix <= |current|
    requires forall i :: 0 <= i < suffix ==> FromEnd(previous[prefix..], i) == FromEnd(current[prefix..], i)
    ensures forall i :: 0 <= i < suffix ==> FromEnd(previous, i) == FromEnd(current, i)
  {
    forall i | 0 <= i < suffix
      ensures FromEnd(previous, i) == FromEnd(current, i)
    {
      FromEndOfTail(previous, prefix, i);
      FromEndOfTail(current, prefix, i);
    }
  }

  // ----- When 32-bit offsets are good enough

  /** Each of the entries is the one `period` further on. */
  predicate Repeats(uints: seq<nat>, from: nat, to: nat, period: nat) {
    to + period <= |uints| && forall k :: from <= k < to ==> uints[k] == uints[k + period]
  }

  /** Whether an edit that should start at `p` does the same at the earlier `s`: a replacement never
      does, a deletion or an insertion only inside a stretch that repeats itself. */
  predicate Slides(previous: seq<nat>, current: seq<nat>, deleted: nat, inserted: nat, s: nat, p: nat)
    requires s <= p
  {
    if inserted == 0 then Repeats(previous, s, p, deleted)
    else deleted == 0 && Repeats(current, s, p, inserted) && Repeats(current, s, s + inserted, p - s)
  }

  /** The edit's two offsets survive 32-bit arithmetic, or its start does not and need not. */
  predicate DeltaFits(previous: Tokens, current: Tokens) {
    var removed, inserted := UINTS_PER_TOKEN * |Removed(previous, current)|, UINTS_PER_TOKEN * |Inserted(previous, current)|;
    var start, wrapped := UINTS_PER_TOKEN * CommonPrefix(previous, current), Scaled(CommonPrefix(previous, current));
    previous == current
    || (removed < U32_SIZE
        && (start < U32_SIZE
            || (wrapped <= start && Slides(Flatten(previous), Flatten(current), removed, inserted, wrapped, start))))
  }

  lemma ScaledWraps(count: nat)
    ensures Scaled(count) == UINTS_PER_TOKEN * count <==> UINTS_PER_TOKEN * count < U32_SIZE
    ensures U32_SIZE <= UINTS_PER_TOKEN * count ==> Scaled(count) + U32_SIZE <= UINTS_PER_TOKEN * count
  {
    var whole := count / U32_SIZE;
    assert count == whole * U32_SIZE + count % U32_SIZE;
    var uints := count % U32_SIZE * UINTS_PER_TOKEN;
    assert uints == uints / U32_SIZE * U32_SIZE + uints % U32_SIZE;
  }

  /** The part `out` of an array replaced by `data`, but at `s` instead of where it stands. */
  function Misplaced(before: seq<nat>, out: seq<nat>, data: seq<nat>, after: seq<nat>, s: nat): (early: seq<nat>)
    requires s <= |before|
    ensures |early| == |before| + |data| + |after|
  {
    (before + out + after)[..s] + data + (before + out + after)[s + |out|..]
  }

  lemma MisplacedAt(before: seq<nat>, data: seq<nat>, after: seq<nat>, s: nat, k: nat)
    requires s <= |before| && k < |before| + |data| + |after|
    ensures var right, early := before + data + after, Misplaced(before, [], data, after, s);
      && (k < s || |before| + |data| <= k ==> early[k] == right[k])
      && (s <= k < s + |data| ==> early[k] == right[k + (|before| - s)])
      && (s + |data| <= k < |before| + |data| ==> early[k] == right[k - |data|])
  {
  }

  lemma RepeatingStretchesTakeInsertions(before: seq<nat>, data: seq<nat>, after: seq<nat>, s: nat)
    requires s <= |before|
    requires var right := before + data + after;
      Repeats(right, s, |before|, |data|) && Repeats(right, s, s + |data|, |before| - s)
    ensures Misplaced(before, [], data, after, s) == before + data + after
  {
    var right, early := before + data + after, Misplaced(before, [], data, after, s);
    forall k | 0 <= k < |right|
      ensures early[k] == right[k]
    {
      MisplacedAt(before, data, after, s, k);
      if s + |data| <= k < |before| + |data| {
        assert right[k - |data|] == right[k - |data| + |data|];
      }
    }
  }

  lemma InsertedEarly(before: seq<nat>, data: seq<nat>, after: seq<nat>, s: nat)
    requires s <= |before|
    ensures var right := before + data + after;
      Misplaced(before, [], data, after, s) == right <==>
      Repeats(right, s, |before|, |data|) && Repeats(right, s, s + |data|, |before| - s)
  {
    var right, early := before + data + after, Misplaced(before, [], data, after, s);
    if early == right {
      forall k | s <= k < |before|
        ensures right[k] == right[k + |data|]
      {
        MisplacedAt(before, data, after, s, k + |data|);
      }
      forall k | s <= k < s + |data|
        ensures right[k] == right[k + (|before| - s)]
      {
        MisplacedAt(before, data, after, s, k);
      }
    } else if Repeats(right, s, |before|, |data|) && Repeats(right, s, s + |data|, |before| - s) {
      RepeatingStretchesTakeInsertions(before, data, after, s);
    }
  }

  lemma DeletedEarly(before: seq<nat>, out: seq<nat>, after: seq<nat>, s: nat)
    requires s <= |before|
    ensures Misplaced(before, out, [], after, s) == before + [] + after <==>
      Repeats(before + out + after, s, |before|, |out|)
  {
    var right, early, previous := before + [] + after, Misplaced(before, out, [], after, s), before + out + after;
    assert forall k :: s <= k < |before| ==> early[k] == previous[k + |out|] && right[k] == previous[k];
    assert forall k :: |before| <= k < |right| ==> early[k] == right[k];
  }

  /** A replacement made too early leaves its last entries as they were. */
  lemma ReplacedEarly(before: seq<nat>, out: seq<nat>, data: seq<nat>, after: seq<nat>, s: nat, width: nat)
    requires width <= |out| && width <= |data| && s + width <= |before|
    requires out[|out| - width..] != data[|data| - width..]
    ensures Misplaced(before, out, data, after, s) != before + data + after
  {
    var right, early := before + data + after, Misplaced(before, out, data, after, s);
    var end := |before| + |data|;
    assert early[end - width..end] == out[|out| - width..];
    assert right[end - width..end] == data[|data| - width..];
  }

  lemma LastsDiffer(previous: Tokens, current: Tokens)
    ensures var removed, inserted := Removed(previous, current), Inserted(previous, current);
      removed != [] && inserted != [] ==> removed[|removed| - 1] != inserted[|inserted| - 1]
  {
    var prefix, suffix := CommonPrefix(previous, current), Suffix(previous, current);
    if prefix + suffix < |previous| && prefix + suffix < |current| {
      FromEndOfTail(previous, prefix, suffix);
      FromEndOfTail(current, prefix, suffix);
    }
  }

  lemma LastUints(tokens: Tokens)
    requires tokens != []
    ensures Flatten(tokens)[UINTS_PER_TOKEN * (|tokens| - 1)..] == Uints(tokens[|tokens| - 1])
  {
    var front, last := tokens[..|tokens| - 1], [tokens[|tokens| - 1]];
    assert tokens == front + last;
    FlattenConcat(front, last);
    assert Flatten(last) == Uints(last[0]) + Flatten(last[1..]);
  }

  lemma TokensReplacedEarly(before: seq<nat>, removed: Tokens, inserted: Tokens, after: seq<nat>, s: nat)
    requires removed != [] && inserted != [] && removed[|removed| - 1] != inserted[|inserted| - 1]
    requires s + UINTS_PER_TOKEN <= |before|
    ensures Misplaced(before, Flatten(removed), Flatten(inserted), after, s) != before + Flatten(inserted) + after
  {
    LastUints(removed);
    LastUints(inserted);
    assert Uints(removed[|removed| - 1]) != Uints(inserted[|inserted| - 1]);
    ReplacedEarly(before, Flatten(removed), Flatten(inserted), after, s, UINTS_PER_TOKEN);
  }

  /** What the right splice does at an early start, on the flattened streams. */
  lemma EarlyIff(before: seq<nat>, removed: Tokens, inserted: Tokens, after: seq<nat>, s: nat)
    requires removed != [] && inserted != [] ==> removed[|removed| - 1] != inserted[|inserted| - 1]
    requires s + UINTS_PER_TOKEN <= |before|
    ensures var out, data := Flatten(removed), Flatten(inserted);
      Misplaced(before, out, data, after, s) == before + data + after <==>
      Slides(before + out + after, before + data + after, |out|, |data|, s, |before|)
  {
    if inserted == [] {
      DeletedEarly(before, Flatten(removed), after, s);
    } else if removed == [] {
      InsertedEarly(before, Flatten(inserted), after, s);
    } else {
      TokensReplacedEarly(before, removed, inserted, after, s);
    }
  }

  /** The flattened streams, cut into what is common and what differs. */
  lemma FlattenedParts(previous: Tokens, current: Tokens) returns (before: seq<nat>, after: seq<nat>)
    ensures Flatten(previous) == before + Flatten(Removed(previous, current)) + after
    ensures Flatten(current) == before + Flatten(Inserted(previous, current)) + after
    ensures |before| == UINTS_PER_TOKEN * CommonPrefix(previous, current)
  {
    var prefix, suffix := CommonPrefix(previous, current), Suffix(previous, current);
    var removed, inserted := Removed(previous, current), Inserted(previous, current);
    Middles(previous, current);
    FlattenConcat(previous[..prefix] + removed, previous[|previous| - suffix..]);
    FlattenConcat(previous[..prefix], removed);
    FlattenConcat(previous[..prefix] + inserted, previous[|previous| - suffix..]);
    FlattenConcat(previous[..prefix], inserted);
    before, after := Flatten(previous[..prefix]), Flatten(previous[|previous| - suffix..]);
  }

  /** A splice that deletes too little gets the length wrong. */
  lemma WrongCountShows(uints: seq<nat>, edit: Edit, right: seq<nat>, count: nat)
    requires edit.start + count <= |uints| && edit.deleteCount < count
    requires |right| == |uints| - count + |Flatten(if edit.data.Some? then edit.data.value else [])|
    ensures Splice(uints, edit) != Some(right)
  {
  }

  lemma RightCountSplices(before: seq<nat>, out: seq<nat>, data: Tokens, after: seq<nat>, s: nat)
    requires s <= |before|
    ensures var edit := Edit(s, |out|, if data == [] then None else Some(data));
      Splice(before + out + after, edit) == Some(Misplaced(before, out, Flatten(data), after, s))
  {
  }

  lemma InPlace(before: seq<nat>, out: seq<nat>, data: seq<nat>, after: seq<nat>)
    ensures Misplaced(before, out, data, after, |before|) == before + data + after
  {
  }

  /** A splice that deletes the right count is right exactly when it starts where it should, or where
      that makes no difference. */
  lemma SplicedIff(before: seq<nat>, removed: Tokens, inserted: Tokens, after: seq<nat>, s: nat)
    requires removed != [] && inserted != [] ==> removed[|removed| - 1] != inserted[|inserted| - 1]
    requires s == |before| || s + UINTS_PER_TOKEN <= |before|
    ensures var out, data := Flatten(removed), Flatten(inserted);
      var edit := Edit(s, |out|, if inserted == [] then None else Some(inserted));
      Splice(before + out + after, edit) == Some(before + data + after) <==>
      s == |before| || Slides(before + out + after, before + data + after, |out|, |data|, s, |before|)
  {
    RightCountSplices(before, Flatten(removed), inserted, after, s);
    if s == |before| {
      InPlace(before, Flatten(removed), Flatten(inserted), after);
    } else {
      EarlyIff(before, removed, inserted, after, s);
    }
  }

  /** A deletion of more than 32 bits can count is cut short. */
  lemma TooLongDeletionsFail(previous: Tokens, current: Tokens)
    requires U32_SIZE <= UINTS_PER_TOKEN * |Removed(previous, current)|
    ensures ApplyEdits(Flatten(previous), DeltaEdits(previous, current)) != Some(Flatten(current))
  {
    var removed, inserted := Removed(previous, current), Inserted(previous, current);
    var before, after := FlattenedParts(previous, current);
    ScaledWraps(CommonPrefix(previous, current));
    ScaledWraps(|removed|);
    WrongCountShows(Flatten(previous), DeltaEdits(previous, current)[0], Flatten(current), |Flatten(removed)|);
  }

  lemma TheEdit(previous: Tokens, current: Tokens)
    requires previous != current
    ensures var inserted := Inserted(previous, current);
      DeltaEdits(previous, current) ==
      [Edit(Scaled(CommonPrefix(previous, current)), Scaled(|Removed(previous, current)|),
            if inserted == [] then None else Some(inserted))]
    ensures Removed(previous, current) != [] || Inserted(previous, current) != []
  {
    Middles(previous, current);
  }

  lemma CountedEditFitsIff(previous: Tokens, current: Tokens)
    requires previous != current && UINTS_PER_TOKEN * |Removed(previous, current)| < U32_SIZE
    ensures var start, wrapped := UINTS_PER_TOKEN * CommonPrefix(previous, current), Scaled(CommonPrefix(previous, current));
      var out, data := Flatten(Removed(previous, current)), Flatten(Inserted(previous, current));
      var slides := wrapped <= start && Slides(Flatten(previous), Flatten(current), |out|, |data|, wrapped, start);
      && (wrapped == start || wrapped + UINTS_PER_TOKEN <= start)
      && (DeltaFits(previous, current) <==> (wrapped == start || slides))
  {
    ScaledWraps(CommonPrefix(previous, current));
  }

  /** The splice of a whole stream, given how it is cut. */
  lemma StreamSplicedIff(uints: seq<nat>, right: seq<nat>, before: seq<nat>, removed: Tokens, inserted: Tokens, after: seq<nat>,
                         edit: Edit)
    requires uints == before + Flatten(removed) + after && right == before + Flatten(inserted) + after
    requires removed != [] && inserted != [] ==> removed[|removed| - 1] != inserted[|inserted| - 1]
    requires edit.start == |before| || edit.start + UINTS_PER_TOKEN <= |before|
    requires edit.deleteCount == |Flatten(removed)| && edit.data == if inserted == [] then None else Some(inserted)
    ensures var lands := ApplyEdits(uints, [edit]) == Some(right);
      lands <==> (edit.start == |before| || Slides(uints, right, |Flatten(removed)|, |Flatten(inserted)|, edit.start, |before|))
  {
    SplicedIff(before, removed, inserted, after, edit.start);
  }

  lemma StreamEditIff(previous: Tokens, current: Tokens, edit: Edit)
    requires var start := UINTS_PER_TOKEN * CommonPrefix(previous, current);
      edit.start == start || edit.start + UINTS_PER_TOKEN <= start
    requires edit.deleteCount == |Flatten(Removed(previous, current))|
    requires edit.data == if Inserted(previous, current) == [] then None else Some(Inserted(previous, current))
    ensures var lands := ApplyEdits(Flatten(previous), [edit]) == Some(Flatten(current));
      var out, data := Flatten(Removed(previous, current)), Flatten(Inserted(previous, current));
      var start := UINTS_PER_TOKEN * CommonPrefix(previous, current);
      lands <==> (edit.start == start || Slides(Flatten(previous), Flatten(current), |out|, |data|, edit.start, start))
  {
    var before, after := FlattenedParts(previous, current);
    LastsDiffer(previous, current);
    StreamSplicedIff(Flatten(previous), Flatten(current), before, Removed(previous, current), Inserted(previous, current), after, edit);
  }

  /** An edit whose deletion 32 bits can count. */
  lemma CountedEditIsCorrectIff(previous: Tokens, current: Tokens)
    requires previous != current && UINTS_PER_TOKEN * |Removed(previous, current)| < U32_SIZE
    ensures var lands := ApplyEdits(Flatten(previous), DeltaEdits(previous, current)) == Some(Flatten(current));
      var fits := DeltaFits(previous, current);
      lands <==> fits
  {
    TheEdit(previous, current);
    ScaledWraps(|Removed(previous, current)|);
    CountedEditFitsIff(previous, current);
    StreamEditIff(previous, current, DeltaEdits(previous, current)[0]);
  }

  lemma EditIsCorrectIff(previous: Tokens, current: Tokens)
    requires previous != current
    ensures ApplyEdits(Flatten(previous), DeltaEdits(previous, current)) == Some(Flatten(current)) <==>
      DeltaFits(previous, current)
  {
    if U32_SIZE <= UINTS_PER_TOKEN * |Removed(previous, current)| {
      TooLongDeletionsFail(previous, current);
    } else {
      CountedEditIsCorrectIff(previous, current);
    }
  }

  /** Splicing the edits into the flattened previous stream gives the flattened current one exactly
      when the edit fits. */
  lemma DeltaIsCorrectIff(previous: Tokens, current: Tokens)
    ensures ApplyEdits(Flatten(previous), DeltaEdits(previous, current)) == Some(Flatten(current)) <==>
      DeltaFits(previous, current)
  {
    if previous != current {
      EditIsCorrectIff(previous, current);
    }
  }

  lemma DeltaIsCorrect(previous: Tokens, current: Tokens)
    requires Addressable(previous)
    ensures DeltaFits(previous, current)
    ensures ApplyEdits(Flatten(previous), DeltaEdits(previous, current)) == Some(Flatten(current))
  {
    DeltaIsCorrectIff(previous, current);
  }

  /** One token more at the end of a stream too long to address: the edit's start wraps around, and
      the token goes in near the beginning. */
  lemma LongStreamsCanGoWrong() returns (previous: Tokens, current: Tokens)
    ensures ApplyEdits(Flatten(previous), DeltaEdits(previous, current)) != Some(Flatten(current))
  {
    var count := 858_993_460;
    previous := seq(count, _ => Token(0, 0, 0, 0, 0));
    var extra := [Token(1, 0, 0, 0, 0)];
    current := previous + extra;
    assert CommonPrefix(previous, current) == count;
    assert Removed(previous, current) == [];
    assert |Inserted(previous, current)| == 1;
    LastUints(previous);
    LastUints(current);
    FlattenConcat(previous, extra);
    var last := UINTS_PER_TOKEN * count;
    assert Flatten(current)[last] == Flatten(current)[last..][0] == 1;
    assert Flatten(current)[last - UINTS_PER_TOKEN] == Flatten(previous)[last - UINTS_PER_TOKEN..][0] == 0;
    assert !Repeats(Flatten(current), Scaled(count), last, UINTS_PER_TOKEN);
    DeltaIsCorrectIff(previous, current);
  }

  /** No other single splice over whole tokens deletes fewer tokens or inserts fewer. */
  lemma DeltaIsMinimal(previous: Tokens, current: Tokens, start: nat, deleted: nat, data: Tokens)
    requires start + deleted <= |previous|
    requires current == previous[..start] + data + previous[start + deleted..]
    ensures |Removed(previous, current)| <= deleted
    ensures |Inserted(previous, current)| <= |data|
  {
  }

  lemma FromEndOfTail(tokens: Tokens, prefix: nat, i: nat)
    requires prefix + i < |tokens|
    ensures FromEnd(tokens[prefix..], i) == FromEnd(tokens, i)
  {
  }

  // ----- The cache of returned streams

  datatype Cached = Cached(resultId: string, tokens: Tokens)

  datatype Cache = Cache(nextId: nat, entries: map<Url, Cached>)

  const EMPTY := Cache(0, map[])

  function Stored(cache: Cache, url: Url, tokens: Tokens): Cache {
    var id := cache.nextId + 1;
    Cache(id, cache.entries[url := Cached(Print(id), tokens)])
  }

  function Forgotten(cache: Cache, url: Url): Cache {
    cache.(entries := cache.entries - {url})
  }

  function PreviousOf(cache: Cache, url: Url, resultId: string): Option<Tokens> {
    if url in cache.entries && cache.entries[url].resultId == resultId then Some(cache.entries[url].tokens) else None
  }

  class SemanticTokensCache {
    var nextId: nat
    var entries: map<Url, Cached>

    ghost function View(): Cache
      reads this
    {
      Cache(nextId, entries)
    }

    constructor ()
      ensures View() == EMPTY
    {
      nextId, entries := 0, map[];
    }

    method Store(url: Url, tokens: Tokens) returns (resultId: string)
      modifies this
      ensures View() == Stored(old(View()), url, tokens) && resultId == Print(old(nextId) + 1)
    {
      nextId := nextId + 1;
      resultId := Print(nextId);
      entries := entries[url := Cached(resultId, tokens)];
    }

    method Forget(url: Url)
      modifies this
      ensures View() == Forgotten(old(View()), url)
    {
      entries := entries - {url};
    }

    method Previous(url: Url, resultId: string) returns (tokens: Option<Tokens>)
      ensures tokens == PreviousOf(View(), url, resultId)
    {
      tokens := None;
      if url in entries && entries[url].resultId == resultId {
        tokens := Some(entries[url].tokens);
      }
    }

    /** The handler of a delta request, once the document's current tokens are computed. */
    method FullDelta(url: Url, previousResultId: string, data: Tokens) returns (response: Response)
      modifies this
      ensures (View(), Some(response)) == Served(old(View()), AskDelta(url, previousResultId, data))
    {
      var previous := Previous(url, previousResultId);
      var resultId := Store(url, data);
      response := if previous.Some? then Delta(resultId, DeltaEdits(previous.value, data)) else Full(resultId, data);
    }
  }

  // ----- Sessions

  /** What reaches the cache: a request with the tokens computed for it, or a close. */
  datatype Request =
    | AskFull(url: Url, tokens: Tokens)
    | AskDelta(url: Url, base: string, tokens: Tokens)
    | Close(url: Url)

  datatype Response = Full(resultId: string, data: Tokens) | Delta(resultId: string, edits: seq<Edit>)

  function Served(cache: Cache, request: Request): (Cache, Option<Response>) {
    match request
    case Close(url) => (Forgotten(cache, url), None)
    case AskFull(url, tokens) => (Stored(cache, url, tokens), Some(Full(Print(cache.nextId + 1), tokens)))
    case AskDelta(url, base, tokens) =>
      var previous := PreviousOf(cache, url, base);
      (Stored(cache, url, tokens),
       Some(if previous.Some? then Delta(Print(cache.nextId + 1), DeltaEdits(previous.value, tokens))
            else Full(Print(cache.nextId + 1), tokens)))
  }

  /** The arrays a client holds under each result id. */
  type Held = map<string, seq<nat>>

  /** The client keeps a full answer as it is and splices a delta into what it holds under the id it
      asked against; `None` if it holds nothing there or an edit does not fit. */
  function Received(held: Held, request: Request, response: Option<Response>): Option<Held> {
    match response
    case None => Some(held)
    case Some(Full(id, data)) => Some(held[id := Flatten(data)])
    case Some(Delta(id, edits)) =>
      if !request.AskDelta? || request.base !in held || 1 < |edits| then None
      else
        var applied := ApplyEdits(held[request.base], edits);
        if applied.None? then None else Some(held[id := applied.value])
  }

  function CacheAfter(requests: seq<Request>): Cache {
    if requests == [] then EMPTY else Served(CacheAfter(requests[..|requests| - 1]), requests[|requests| - 1]).0
  }

  function HeldAfter(requests: seq<Request>): Option<Held> {
    if requests == [] then Some(map[])
    else
      var before, request := requests[..|requests| - 1], requests[|requests| - 1];
      var held := HeldAfter(before);
      if held.None? then None else Received(held.value, request, Served(CacheAfter(before), request).1)
  }

  /** The streams computed so far, one for each answered request. */
  function Streams(requests: seq<Request>): seq<Tokens> {
    if requests == [] then []
    else
      var streams, request := Streams(requests[..|requests| - 1]), requests[|requests| - 1];
      if request.Close? then streams else streams + [request.tokens]
  }

  /** Every delta the server answered fits. */
  predicate AllDeltasFit(requests: seq<Request>) {
    requests != [] ==>
      var before, request := requests[..|requests| - 1], requests[|requests| - 1];
      AllDeltasFit(before) && AnswerFits(CacheAfter(before), request)
  }

  predicate AnswerFits(cache: Cache, request: Request) {
    request.AskDelta? && PreviousOf(cache, request.url, request.base).Some? ==>
      DeltaFits(PreviousOf(cache, request.url, request.base).value, request.tokens)
  }

  /** Exactly the ids minted so far are held, each under the stream it was returned for. */
  ghost predicate Mirrors(held: Held, streams: seq<Tokens>) {
    && (forall n :: 1 <= n <= |streams| ==> Print(n) in held && held[Print(n)] == Flatten(streams[n - 1]))
    && (forall id <- held :: Minted(id, |streams|))
  }

  ghost predicate Minted(id: string, count: nat) {
    exists n :: 1 <= n <= count && id == Print(n)
  }

  ghost predicate NamesItsStream(cache: Cache, streams: seq<Tokens>) {
    && cache.nextId == |streams|
    && forall url <- cache.entries :: NamesOne(cache.entries[url], streams)
  }

  ghost predicate NamesOne(entry: Cached, streams: seq<Tokens>) {
    exists n :: 1 <= n <= |streams| && entry == Cached(Print(n), streams[n - 1])
  }

  lemma NextIdIsNew(count: nat)
    ensures !Minted(Print(count + 1), count)
  {
    forall n | 1 <= n <= count ensures Print(n) != Print(count + 1) {
      PrintIsInjective(n, count + 1);
    }
  }

  lemma MirrorsNext(held: Held, streams: seq<Tokens>, tokens: Tokens)
    requires Mirrors(held, streams)
    ensures Mirrors(held[Print(|streams| + 1) := Flatten(tokens)], streams + [tokens])
    ensures Print(|streams| + 1) !in held
  {
    var count, next := |streams|, streams + [tokens];
    var id := Print(count + 1);
    NextIdIsNew(count);
    var after := held[id := Flatten(tokens)];
    forall n | 1 <= n <= count + 1 ensures Print(n) in after && after[Print(n)] == Flatten(next[n - 1]) {
      if n <= count {
        assert Minted(Print(n), count);
      }
    }
    forall other <- after ensures Minted(other, count + 1) {
      if other in held {
        var n :| 1 <= n <= count && other == Print(n);
      }
    }
  }

  lemma NamesNext(cache: Cache, streams: seq<Tokens>, url: Url, tokens: Tokens)
    requires NamesItsStream(cache, streams)
    ensures NamesItsStream(Stored(cache, url, tokens), streams + [tokens])
  {
  }

  /** A delta against an id is spliced into the very stream returned under it, and gives the new one
      exactly when it fits. */
  lemma DeltaLands(cache: Cache, held: Held, streams: seq<Tokens>, url: Url, base: string, tokens: Tokens)
    requires NamesItsStream(cache, streams) && Mirrors(held, streams)
    requires PreviousOf(cache, url, base).Some?
    ensures var previous := PreviousOf(cache, url, base).value;
      && base in held && held[base] == Flatten(previous)
      && (ApplyEdits(held[base], DeltaEdits(previous, tokens)) == Some(Flatten(tokens)) <==> DeltaFits(previous, tokens))
  {
    var n :| 1 <= n <= |streams| && cache.entries[url] == Cached(Print(n), streams[n - 1]);
    assert base == Print(n);
    DeltaIsCorrectIff(streams[n - 1], tokens);
  }

  lemma FullAnswerIsReceived(cache: Cache, held: Held, request: Request)
    requires !request.Close?
    requires request.AskDelta? ==> PreviousOf(cache, request.url, request.base).None?
    ensures Received(held, request, Served(cache, request).1) == Some(held[Print(cache.nextId + 1) := Flatten(request.tokens)])
  {
  }

  /** What a client does with a delta is splice it, under the new id. */
  lemma DeltaIsReceived(cache: Cache, held: Held, request: Request)
    requires request.AskDelta? && PreviousOf(cache, request.url, request.base).Some? && request.base in held
    ensures var edits := DeltaEdits(PreviousOf(cache, request.url, request.base).value, request.tokens);
      var applied := ApplyEdits(held[request.base], edits);
      Received(held, request, Served(cache, request).1) ==
        if applied.None? then None else Some(held[Print(cache.nextId + 1) := applied.value])
  {
  }

  /** The client ends up with the stream under the new id, unless the answer is a delta that does not
      fit. */
  lemma AnswerIsReceived(cache: Cache, held: Held, streams: seq<Tokens>, request: Request)
    requires NamesItsStream(cache, streams) && Mirrors(held, streams) && !request.Close?
    ensures var id := Print(|streams| + 1);
      var after := Received(held, request, Served(cache, request).1);
      && (AnswerFits(cache, request) ==> after == Some(held[id := Flatten(request.tokens)]))
      && (!AnswerFits(cache, request) ==> after.None? || id !in after.value || after.value[id] != Flatten(request.tokens))
  {
    if request.AskDelta? && PreviousOf(cache, request.url, request.base).Some? {
      DeltaLands(cache, held, streams, request.url, request.base, request.tokens);
      DeltaIsReceived(cache, held, request);
    } else {
      FullAnswerIsReceived(cache, held, request);
    }
  }

  /** The streams once one more request is answered. */
  function WithAnswer(streams: seq<Tokens>, request: Request): seq<Tokens> {
    if request.Close? then streams else streams + [request.tokens]
  }

  lemma ServedKeepsMirror(cache: Cache, held: Held, streams: seq<Tokens>, request: Request)
    requires NamesItsStream(cache, streams) && Mirrors(held, streams)
    ensures var after := Received(held, request, Served(cache, request).1);
      after.Some? && Mirrors(after.value, WithAnswer(streams, request)) <==> AnswerFits(cache, request)
  {
    if !request.Close? {
      MirrorsNext(held, streams, request.tokens);
      AnswerIsReceived(cache, held, streams, request);
      assert WithAnswer(streams, request)[|streams|] == request.tokens;
    }
  }

  lemma OnlyTheNewIdChanges(cache: Cache, held: Held, request: Request, id: string)
    requires Received(held, request, Served(cache, request).1).Some? && id != Print(cache.nextId + 1)
    ensures var after := Received(held, request, Served(cache, request).1).value;
      (id in after <==> id in held) && (id in held ==> after[id] == held[id])
  {
  }

  /** Whatever was wrong stays wrong: later answers come under later ids. */
  lemma MirrorNeverRecovers(cache: Cache, held: Held, streams: seq<Tokens>, request: Request, after: Held)
    requires cache.nextId == |streams| && Received(held, request, Served(cache, request).1) == Some(after)
    requires Mirrors(after, WithAnswer(streams, request))
    requires forall id <- held :: Minted(id, |streams|)
    ensures Mirrors(held, streams)
  {
    forall n | 1 <= n <= |streams|
      ensures Print(n) in held && held[Print(n)] == Flatten(streams[n - 1])
    {
      PrintIsInjective(n, |streams| + 1);
      OnlyTheNewIdChanges(cache, held, request, Print(n));
      assert WithAnswer(streams, request)[n - 1] == streams[n - 1];
    }
  }

  /** The cache names each stream by the id it was returned under, and the client holds nothing else. */
  lemma {:induction false} IdsAreThoseMinted(requests: seq<Request>)
    ensures NamesItsStream(CacheAfter(requests), Streams(requests))
    ensures HeldAfter(requests).Some? ==> forall id <- HeldAfter(requests).value :: Minted(id, |Streams(requests)|)
    decreases |requests|
  {
    if requests != [] {
      var before, request := requests[..|requests| - 1], requests[|requests| - 1];
      IdsAreThoseMinted(before);
      if !request.Close? {
        NamesNext(CacheAfter(before), Streams(before), request.url, request.tokens);
      }
      if HeldAfter(requests).Some? {
        MintedNext(HeldAfter(before).value, CacheAfter(before), Streams(before), request);
      }
    }
  }

  lemma MintedNext(held: Held, cache: Cache, streams: seq<Tokens>, request: Request)
    requires cache.nextId == |streams| && Received(held, request, Served(cache, request).1).Some?
    requires forall id <- held :: Minted(id, |streams|)
    ensures forall id <- Received(held, request, Served(cache, request).1).value :: Minted(id, |WithAnswer(streams, request)|)
  {
    forall id <- Received(held, request, Served(cache, request).1).value
      ensures Minted(id, |WithAnswer(streams, request)|)
    {
      if id in held {
        var n :| 1 <= n <= |streams| && id == Print(n);
      }
    }
  }

  /** Over every history of full requests, delta requests against any id, known or not, and closes,
      a client that splices the deltas it gets holds, under each id, exactly the stream the server
      computed for that answer, if and only if every delta answered fits. */
  lemma {:induction false} ClientHoldsEveryStreamIff(requests: seq<Request>)
    ensures HeldAfter(requests).Some? && Mirrors(HeldAfter(requests).value, Streams(requests)) <==> AllDeltasFit(requests)
    decreases |requests|
  {
    if requests != [] {
      var before, request := requests[..|requests| - 1], requests[|requests| - 1];
      ClientHoldsEveryStreamIff(before);
      IdsAreThoseMinted(before);
      if HeldAfter(before).Some? {
        var held := HeldAfter(before).value;
        if Mirrors(held, Streams(before)) {
          ServedKeepsMirror(CacheAfter(before), held, Streams(before), request);
        } else if HeldAfter(requests).Some? && Mirrors(HeldAfter(requests).value, Streams(requests)) {
          MirrorNeverRecovers(CacheAfter(before), held, Streams(before), request, HeldAfter(requests).value);
        }
      }
    }
  }

  /** Streams whose flattened form 32-bit offsets can address. */
  predicate AllAddressable(requests: seq<Request>) {
    forall i :: 0 <= i < |requests| && !requests[i].Close? ==> Addressable(requests[i].tokens)
  }

  lemma AddressableAnswerFits(cache: Cache, request: Request)
    requires forall url <- cache.entries :: Addressable(cache.entries[url].tokens)
    ensures AnswerFits(cache, request)
  {
    if request.AskDelta? && PreviousOf(cache, request.url, request.base).Some? {
      DeltaIsCorrect(PreviousOf(cache, request.url, request.base).value, request.tokens);
    }
  }

  lemma {:induction false} AddressableHistoriesFit(requests: seq<Request>)
    requires AllAddressable(requests)
    ensures AllDeltasFit(requests)
    decreases |requests|
  {
    if requests != [] {
      var before, request := requests[..|requests| - 1], requests[|requests| - 1];
      AddressableHistoriesFit(before);
      CachedStreamsWereAsked(before);
      AddressableAnswerFits(CacheAfter(before), request);
    }
  }

  /** So it does whenever no stream outgrows 32-bit offsets. */
  lemma ClientHoldsEveryStream(requests: seq<Request>)
    requires AllAddressable(requests)
    ensures HeldAfter(requests).Some? && Mirrors(HeldAfter(requests).value, Streams(requests))
  {
    AddressableHistoriesFit(requests);
    ClientHoldsEveryStreamIff(requests);
  }

  lemma {:induction false} CachedStreamsWereAsked(requests: seq<Request>)
    requires AllAddressable(requests)
    ensures forall url <- CacheAfter(requests).entries :: Addressable(CacheAfter(requests).entries[url].tokens)
    decreases |requests|
  {
    if requests != [] {
      CachedStreamsWereAsked(requests[..|requests| - 1]);
    }
  }

  /** A closed document's stream is dropped: a later delta request for it gets a full answer. */
  lemma ClosedDocumentsGetFullAnswers(requests: seq<Request>, url: Url, base: string, tokens: Tokens)
    ensures var response := Served(CacheAfter(requests + [Close(url)]), AskDelta(url, base, tokens)).1;
      response.Some? && response.value.Full? && response.value.data == tokens
  {
  }
}
