/** The stop decision, and what stepping over and out mean on the statement trace of any tree of
    calls.

    An `ensures` that names its one claim in a `var` first is proved whole and not conjunct by
    conjunct. */
module Step {
  import opened Prelude

  datatype Resume = Continue | Over(fromDepth: nat) | Into | Out(fromDepth: nat) | Pause

  datatype StopReason = Stepped | Paused | Entry | Breakpoint

  function Decide(mode: Resume, depth: nat): Option<StopReason> {
    match mode
    case Continue => None
    case Over(fromDepth) => if depth <= fromDepth then Some(Stepped) else None
    case Into => Some(Stepped)
    case Out(fromDepth) => if depth < fromDepth then Some(Stepped) else None
    case Pause => Some(Paused)
  }

  /** A statement and the activations it calls, in order; an activation is its statements. */
  datatype Stmt = Stmt(id: nat, calls: seq<Activation>)

  datatype Activation = Activation(body: seq<Stmt>)

  /** One consultation of the hook: the statement about to run and its activation's depth. */
  datatype Visit = Visit(id: nat, depth: nat)

  function StmtTrace(s: Stmt, depth: nat): seq<Visit>
    decreases s, 1
  {
    [Visit(s.id, depth)] + CallsTrace(s.calls, depth + 1)
  }

  function CallsTrace(calls: seq<Activation>, depth: nat): seq<Visit>
    decreases calls, 0
  {
    if calls == [] then [] else BodyTrace(calls[0].body, depth) + CallsTrace(calls[1..], depth)
  }

  function BodyTrace(body: seq<Stmt>, depth: nat): seq<Visit>
    decreases body, 0
  {
    if body == [] then [] else StmtTrace(body[0], depth) + BodyTrace(body[1..], depth)
  }

  /** Where the run stops when it resumes in `mode` and the hook is next consulted at `from`, with
      no breakpoint, pause or entry stop. */
  function NextStop(trace: seq<Visit>, from: nat, mode: Resume): Option<nat>
    decreases |trace| - from
  {
    if |trace| <= from then None
    else if Decide(mode, trace[from].depth).Some? then Some(from)
    else NextStop(trace, from + 1, mode)
  }

  // ----- Places in a call tree

  /** The surroundings of one activation: it is one call of statement `id` of the activation that
      `outer` surrounds, between `earlier` and `later` calls of that statement and `before` and
      `after` statements. */
  datatype Context =
    | Top(depth: nat)
    | Called(outer: Context, before: seq<Stmt>, id: nat, earlier: seq<Activation>,
             later: seq<Activation>, after: seq<Stmt>)

  function Depth(ctx: Context): nat {
    match ctx
    case Top(depth) => depth
    case Called(outer, _, _, _, _, _) => Depth(outer) + 1
  }

  function TopDepth(ctx: Context): nat {
    match ctx
    case Top(depth) => depth
    case Called(outer, _, _, _, _, _) => TopDepth(outer)
  }

  /** The body of the whole program with `body` in the activation `ctx` surrounds. */
  function Plug(ctx: Context, body: seq<Stmt>): seq<Stmt> {
    match ctx
    case Top(_) => body
    case Called(outer, before, id, earlier, later, after) =>
      Plug(outer, before + [Stmt(id, earlier + [Activation(body)] + later)] + after)
  }

  function Trace(ctx: Context, body: seq<Stmt>): seq<Visit> {
    BodyTrace(Plug(ctx, body), TopDepth(ctx))
  }

  function TraceBefore(ctx: Context): seq<Visit> {
    match ctx
    case Top(_) => []
    case Called(outer, before, id, earlier, _, _) =>
      TraceBefore(outer) + BodyTrace(before, Depth(outer)) + [Visit(id, Depth(outer))] + CallsTrace(earlier, Depth(ctx))
  }

  function TraceAfter(ctx: Context): seq<Visit> {
    match ctx
    case Top(_) => []
    case Called(outer, _, _, _, later, after) =>
      CallsTrace(later, Depth(ctx)) + BodyTrace(after, Depth(outer)) + TraceAfter(outer)
  }

  lemma {:induction false} BodyTraceSplits(first: seq<Stmt>, second: seq<Stmt>, depth: nat)
    ensures BodyTrace(first + second, depth) == BodyTrace(first, depth) + BodyTrace(second, depth)
    decreases |first|
  {
    if first == [] {
      assert first + second == second;
    } else {
      assert (first + second)[1..] == first[1..] + second;
      BodyTraceSplits(first[1..], second, depth);
    }
  }

  lemma {:induction false} CallsTraceSplits(first: seq<Activation>, second: seq<Activation>, depth: nat)
    ensures CallsTrace(first + second, depth) == CallsTrace(first, depth) + CallsTrace(second, depth)
    decreases |first|
  {
    if first == [] {
      assert first + second == second;
    } else {
      assert (first + second)[1..] == first[1..] + second;
      CallsTraceSplits(first[1..], second, depth);
    }
  }

  lemma OneCallTrace(body: seq<Stmt>, depth: nat)
    ensures CallsTrace([Activation(body)], depth) == BodyTrace(body, depth)
  {
  }

  lemma OneStmtTrace(s: Stmt, depth: nat)
    ensures BodyTrace([s], depth) == StmtTrace(s, depth)
  {
  }

  lemma CallsAroundOne(earlier: seq<Activation>, body: seq<Stmt>, later: seq<Activation>, depth: nat)
    ensures CallsTrace(earlier + [Activation(body)] + later, depth) ==
            CallsTrace(earlier, depth) + BodyTrace(body, depth) + CallsTrace(later, depth)
  {
    CallsTraceSplits(earlier + [Activation(body)], later, depth);
    CallsTraceSplits(earlier, [Activation(body)], depth);
    OneCallTrace(body, depth);
  }

  lemma BodyAroundOne(before: seq<Stmt>, s: Stmt, after: seq<Stmt>, depth: nat)
    ensures BodyTrace(before + [s] + after, depth) ==
            BodyTrace(before, depth) + StmtTrace(s, depth) + BodyTrace(after, depth)
  {
    BodyTraceSplits(before + [s], after, depth);
    BodyTraceSplits(before, [s], depth);
    OneStmtTrace(s, depth);
  }

  lemma Regroup<T>(a: seq<T>, b: seq<T>, c: seq<T>, d: seq<T>, e: seq<T>, f: seq<T>, g: seq<T>, h: seq<T>)
    ensures a + (b + (c + (d + e + f)) + g) + h == (a + b + c + d) + e + (f + g + h)
  {
  }

  /** The whole trace is what comes before the activation, its own trace, and what comes after. */
  lemma {:induction false} TraceAround(ctx: Context, body: seq<Stmt>)
    ensures Trace(ctx, body) == TraceBefore(ctx) + BodyTrace(body, Depth(ctx)) + TraceAfter(ctx)
    decreases ctx
  {
    match ctx
    case Top(_) =>
    case Called(outer, before, id, earlier, later, after) =>
      var d := Depth(outer);
      var s := Stmt(id, earlier + [Activation(body)] + later);
      TraceAround(outer, before + [s] + after);
      BodyAroundOne(before, s, after, d);
      CallsAroundOne(earlier, body, later, d + 1);
      Regroup(TraceBefore(outer), BodyTrace(before, d), [Visit(id, d)], CallsTrace(earlier, d + 1),
              BodyTrace(body, d + 1), CallsTrace(later, d + 1), BodyTrace(after, d), TraceAfter(outer));
  }

  // ----- Depths

  ghost predicate AllAtLeast(trace: seq<Visit>, depth: nat) {
    forall i :: 0 <= i < |trace| ==> depth <= trace[i].depth
  }

  lemma {:induction false} StmtIsNoShallower(s: Stmt, depth: nat)
    ensures AllAtLeast(StmtTrace(s, depth), depth)
    decreases s, 1
  {
    CallsAreNoShallower(s.calls, depth + 1);
  }

  lemma {:induction false} CallsAreNoShallower(calls: seq<Activation>, depth: nat)
    ensures AllAtLeast(CallsTrace(calls, depth), depth)
    decreases calls, 0
  {
    if calls != [] {
      BodyIsNoShallower(calls[0].body, depth);
      CallsAreNoShallower(calls[1..], depth);
    }
  }

  lemma {:induction false} BodyIsNoShallower(body: seq<Stmt>, depth: nat)
    ensures AllAtLeast(BodyTrace(body, depth), depth)
    decreases body, 0
  {
    if body != [] {
      StmtIsNoShallower(body[0], depth);
      BodyIsNoShallower(body[1..], depth);
    }
  }

  // ----- Stops

  /** A stretch in which nothing decides to stop is passed over. */
  lemma {:induction false} StretchIsPassed(trace: seq<Visit>, from: nat, to: nat, mode: Resume)
    requires from <= to <= |trace|
    requires forall i :: from <= i < to ==> Decide(mode, trace[i].depth).None?
    ensures NextStop(trace, from, mode) == NextStop(trace, to, mode)
    decreases |trace| - from
  {
    if from < to {
      StretchIsPassed(trace, from + 1, to, mode);
    }
  }

  lemma {:induction false} StopIsNoEarlier(trace: seq<Visit>, from: nat, mode: Resume)
    ensures var stop := NextStop(trace, from, mode);
            stop.Some? ==> from <= stop.value < |trace| && Decide(mode, trace[stop.value].depth).Some?
    decreases |trace| - from
  {
    if from < |trace| && Decide(mode, trace[from].depth).None? {
      StopIsNoEarlier(trace, from + 1, mode);
    }
  }

  /** Where, in the whole trace, the statement between `pre` and `post` of the activation stands. */
  function IndexOf(ctx: Context, pre: seq<Stmt>): nat {
    |TraceBefore(ctx)| + |BodyTrace(pre, Depth(ctx))|
  }

  lemma RegroupOnce<T>(a: seq<T>, b: seq<T>, c: seq<T>, d: seq<T>, e: seq<T>)
    ensures a + (b + c + d) + e == (a + b) + c + (d + e)
  {
  }

  lemma RegroupTail<T>(all: seq<T>, rest: seq<T>, a: seq<T>, b: seq<T>, c: seq<T>, d: seq<T>, e: seq<T>, f: seq<T>)
    requires all == a + b + (c + rest) && rest == d + e + f
    ensures all == a + (b + c + d) + (e + f)
  {
  }

  /** What precedes a statement, its own visits, and what follows it. */
  lemma TraceAroundStatement(ctx: Context, pre: seq<Stmt>, s: Stmt, post: seq<Stmt>)
    ensures var d := Depth(ctx);
            Trace(ctx, pre + [s] + post) ==
              (TraceBefore(ctx) + BodyTrace(pre, d)) + StmtTrace(s, d) + (BodyTrace(post, d) + TraceAfter(ctx))
  {
    var d := Depth(ctx);
    TraceAround(ctx, pre + [s] + post);
    BodyAroundOne(pre, s, post, d);
    RegroupOnce(TraceBefore(ctx), BodyTrace(pre, d), StmtTrace(s, d), BodyTrace(post, d), TraceAfter(ctx));
  }

  /** A run resumed behind `i` stops no earlier than `end`, and at `end` if that decides to stop. */
  lemma StopsNoEarlierThan(trace: seq<Visit>, i: nat, end: nat, mode: Resume)
    requires i < end <= |trace|
    requires forall k :: i < k < end ==> Decide(mode, trace[k].depth).None?
    ensures var stop := NextStop(trace, i + 1, mode);
            && (stop.Some? ==> end <= stop.value)
            && (end < |trace| && Decide(mode, trace[end].depth).Some? ==> stop == Some(end))
  {
    StretchIsPassed(trace, i + 1, end, mode);
    StopIsNoEarlier(trace, end, mode);
  }

  /** From `i` on the trace is `own` and then `tail`. */
  ghost predicate Laid(trace: seq<Visit>, i: nat, own: seq<Visit>, tail: seq<Visit>) {
    && |trace| == i + |own| + |tail|
    && (forall k :: i <= k < i + |own| ==> trace[k] == own[k - i])
    && (0 < |tail| ==> trace[i + |own|] == tail[0])
  }

  lemma Layout(head: seq<Visit>, own: seq<Visit>, tail: seq<Visit>, trace: seq<Visit>)
    requires trace == head + own + tail
    ensures Laid(trace, |head|, own, tail)
  {
  }

  lemma OwnBegins(head: seq<Visit>, own: seq<Visit>, tail: seq<Visit>, trace: seq<Visit>)
    requires trace == head + own + tail && 0 < |own|
    ensures |head| < |trace| && trace[|head|] == own[0]
  {
  }

  lemma TailBegins(head: seq<Visit>, own: seq<Visit>, tail: seq<Visit>, trace: seq<Visit>, first: Visit)
    requires trace == head + own + tail && 0 < |tail| && tail[0] == first
    ensures |head| + |own| < |trace| && trace[|head| + |own|] == first
  {
  }

  ghost predicate CallsDeeper(own: seq<Visit>, depth: nat) {
    forall k :: 1 <= k < |own| ==> depth < own[k].depth
  }

  lemma CallsAreDeeper(s: Stmt, depth: nat)
    ensures 0 < |StmtTrace(s, depth)| && CallsDeeper(StmtTrace(s, depth), depth)
  {
    var calls := CallsTrace(s.calls, depth + 1);
    CallsAreNoShallower(s.calls, depth + 1);
    assert forall k :: 1 <= k < |StmtTrace(s, depth)| ==> StmtTrace(s, depth)[k] == calls[k - 1];
  }

  lemma BodyTraceBegins(body: seq<Stmt>, depth: nat, rest: seq<Visit>)
    requires body != []
    ensures BodyTrace(body, depth) + rest != []
    ensures (BodyTrace(body, depth) + rest)[0] == Visit(body[0].id, depth)
  {
  }

  /** A step over passes a stretch that is deeper after its first visit, and stops behind it if that
      is no deeper. */
  lemma StepOverPasses(trace: seq<Visit>, i: nat, own: seq<Visit>, tail: seq<Visit>, depth: nat)
    requires Laid(trace, i, own, tail) && 0 < |own|
    requires CallsDeeper(own, depth)
    ensures var stop, end := NextStop(trace, i + 1, Over(depth)), i + |own|;
            && (stop.Some? ==> end <= stop.value)
            && (0 < |tail| && tail[0].depth <= depth ==> stop == Some(end))
  {
    StopsNoEarlierThan(trace, i, i + |own|, Over(depth));
  }

  lemma StepOverFrom(head: seq<Visit>, own: seq<Visit>, tail: seq<Visit>, trace: seq<Visit>, depth: nat)
    requires trace == head + own + tail && 0 < |own| && CallsDeeper(own, depth)
    ensures var stop, end := NextStop(trace, |head| + 1, Over(depth)), |head| + |own|;
            && (stop.Some? ==> end <= stop.value)
            && (0 < |tail| && tail[0].depth <= depth ==> stop == Some(end))
  {
    Layout(head, own, tail, trace);
    StepOverPasses(trace, |head|, own, tail, depth);
  }

  /** A step over from `i`, where `here` is visited: nothing is stopped at before `end`, and `next`, if
      there is one, is stopped at there. */
  ghost predicate StepsOver(trace: seq<Visit>, i: nat, end: nat, here: Visit, next: Option<Visit>) {
    && i < |trace| && trace[i] == here
    && var stop := NextStop(trace, i + 1, Over(here.depth));
       && (stop.Some? ==> end <= stop.value)
       && (next.Some? ==> stop == Some(end) && end < |trace| && trace[end] == next.value)
  }

  function FirstVisit(body: seq<Stmt>, depth: nat): Option<Visit> {
    if body == [] then None else Some(Visit(body[0].id, depth))
  }

  lemma StepsOverParts(head: seq<Visit>, own: seq<Visit>, tail: seq<Visit>, trace: seq<Visit>, here: Visit, next: Option<Visit>)
    requires trace == head + own + tail && 0 < |own| && own[0] == here && CallsDeeper(own, here.depth)
    requires next.Some? ==> 0 < |tail| && tail[0] == next.value && next.value.depth <= here.depth
    ensures StepsOver(trace, |head|, |head| + |own|, here, next)
  {
    OwnBegins(head, own, tail, trace);
    StepOverFrom(head, own, tail, trace, here.depth);
    if next.Some? {
      TailBegins(head, own, tail, trace, next.value);
    }
  }

  lemma StepsOverLaid(head: seq<Visit>, s: Stmt, post: seq<Stmt>, rest: seq<Visit>, trace: seq<Visit>, depth: nat)
    requires trace == head + StmtTrace(s, depth) + (BodyTrace(post, depth) + rest)
    ensures var over := StepsOver(trace, |head|, |head| + |StmtTrace(s, depth)|, Visit(s.id, depth), FirstVisit(post, depth));
            over
  {
    CallsAreDeeper(s, depth);
    if post != [] {
      BodyTraceBegins(post, depth, rest);
    }
    StepsOverParts(head, StmtTrace(s, depth), BodyTrace(post, depth) + rest, trace, Visit(s.id, depth), FirstVisit(post, depth));
  }

  /** Stepping over a statement never stops inside a call the statement makes, and stops at the
      activation's next statement when there is one. */
  lemma StepOverStopsAtTheNextStatement(ctx: Context, pre: seq<Stmt>, s: Stmt, post: seq<Stmt>)
    ensures var d, i := Depth(ctx), IndexOf(ctx, pre);
            var over := StepsOver(Trace(ctx, pre + [s] + post), i, i + |StmtTrace(s, d)|, Visit(s.id, d), FirstVisit(post, d));
            over
  {
    var trace, d := Trace(ctx, pre + [s] + post), Depth(ctx);
    TraceAroundStatement(ctx, pre, s, post);
    StepsOverLaid(TraceBefore(ctx) + BodyTrace(pre, d), s, post, TraceAfter(ctx), trace, d);
  }

  /** Stepping out passes the rest of the activation, everything it calls and the activations its
      caller's statement still makes, and stops at the caller's next statement when there is one. */
  lemma StepOutStopsInTheCaller(ctx: Context, pre: seq<Stmt>, s: Stmt, post: seq<Stmt>)
    requires ctx.Called?
    ensures var trace, d, i := Trace(ctx, pre + [s] + post), Depth(ctx), IndexOf(ctx, pre);
            var passed := StmtTrace(s, d) + BodyTrace(post, d) + CallsTrace(ctx.later, d);
            var stop, end := NextStop(trace, i + 1, Out(d)), i + |passed|;
            && (stop.Some? ==> end <= stop.value)
            && (ctx.after != [] ==> stop == Some(end) && end < |trace| && trace[end] == Visit(ctx.after[0].id, Depth(ctx.outer)))
  {
    var trace, d, i := Trace(ctx, pre + [s] + post), Depth(ctx), IndexOf(ctx, pre);
    var passed := StmtTrace(s, d) + BodyTrace(post, d) + CallsTrace(ctx.later, d);
    var tail := BodyTrace(ctx.after, Depth(ctx.outer)) + TraceAfter(ctx.outer);
    TraceAroundCall(ctx, pre, s, post);
    PassedIsNoShallower(s, post, ctx.later, d);
    StepOutFrom(TraceBefore(ctx) + BodyTrace(pre, d), passed, tail, trace, d);
    if ctx.after != [] {
      BodyTraceBegins(ctx.after, Depth(ctx.outer), TraceAfter(ctx.outer));
      TailBegins(TraceBefore(ctx) + BodyTrace(pre, d), passed, tail, trace, Visit(ctx.after[0].id, Depth(ctx.outer)));
    }
  }

  /** What precedes a statement, what is left of its activation and of its caller's statement, and
      what follows that. */
  lemma TraceAroundCall(ctx: Context, pre: seq<Stmt>, s: Stmt, post: seq<Stmt>)
    requires ctx.Called?
    ensures var d := Depth(ctx);
            Trace(ctx, pre + [s] + post) ==
              (TraceBefore(ctx) + BodyTrace(pre, d)) +
              (StmtTrace(s, d) + BodyTrace(post, d) + CallsTrace(ctx.later, d)) +
              (BodyTrace(ctx.after, Depth(ctx.outer)) + TraceAfter(ctx.outer))
  {
    var d := Depth(ctx);
    TraceAroundStatement(ctx, pre, s, post);
    RegroupTail(Trace(ctx, pre + [s] + post), TraceAfter(ctx), TraceBefore(ctx) + BodyTrace(pre, d), StmtTrace(s, d),
                BodyTrace(post, d), CallsTrace(ctx.later, d), BodyTrace(ctx.after, Depth(ctx.outer)), TraceAfter(ctx.outer));
  }

  /** A step out passes a stretch that is nowhere shallower, and stops behind it if that is. */
  lemma StepOutPasses(trace: seq<Visit>, i: nat, passed: seq<Visit>, tail: seq<Visit>, depth: nat)
    requires Laid(trace, i, passed, tail) && 0 < |passed| && AllAtLeast(passed, depth)
    ensures var stop, end := NextStop(trace, i + 1, Out(depth)), i + |passed|;
            && (stop.Some? ==> end <= stop.value)
            && (0 < |tail| && tail[0].depth < depth ==> stop == Some(end))
  {
    StopsNoEarlierThan(trace, i, i + |passed|, Out(depth));
  }

  lemma StepOutFrom(head: seq<Visit>, passed: seq<Visit>, tail: seq<Visit>, trace: seq<Visit>, depth: nat)
    requires trace == head + passed + tail && 0 < |passed| && AllAtLeast(passed, depth)
    ensures var stop, end := NextStop(trace, |head| + 1, Out(depth)), |head| + |passed|;
            && (stop.Some? ==> end <= stop.value)
            && (0 < |tail| && tail[0].depth < depth ==> stop == Some(end))
  {
    Layout(head, passed, tail, trace);
    StepOutPasses(trace, |head|, passed, tail, depth);
  }

  lemma PassedIsNoShallower(s: Stmt, post: seq<Stmt>, later: seq<Activation>, depth: nat)
    ensures AllAtLeast(StmtTrace(s, depth) + BodyTrace(post, depth) + CallsTrace(later, depth), depth)
  {
    StmtIsNoShallower(s, depth);
    BodyIsNoShallower(post, depth);
    CallsAreNoShallower(later, depth);
  }

  /** Stepping in, and a pause, stop at whatever statement comes next, at any depth; continuing stops at
      none. */
  lemma {:induction false} OtherModesStop(trace: seq<Visit>, from: nat)
    ensures NextStop(trace, from, Into) == NextStop(trace, from, Pause) == if from < |trace| then Some(from) else None
    ensures NextStop(trace, from, Continue) == None
    decreases |trace| - from
  {
    if from < |trace| {
      OtherModesStop(trace, from + 1);
    }
  }

  /** Stepping out of the outermost activation runs the program to its end. */
  lemma StepOutOfTheTopNeverStops(depth: nat, pre: seq<Stmt>, s: Stmt, post: seq<Stmt>)
    ensures NextStop(Trace(Top(depth), pre + [s] + post), IndexOf(Top(depth), pre) + 1, Out(depth)) == None
  {
    var ctx := Top(depth);
    var trace := Trace(ctx, pre + [s] + post);
    BodyIsNoShallower(pre + [s] + post, depth);
    TraceAroundStatement(ctx, pre, s, post);
    StretchIsPassed(trace, IndexOf(ctx, pre) + 1, |trace|, Out(depth));
  }
}
