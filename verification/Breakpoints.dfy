/** Armed breakpoints: which statement visits they fire on, and what a visit then does. */
module Breakpoints {
  import opened Prelude
  import opened Paths

  const U64_MAX := 0xFFFF_FFFF_FFFF_FFFF

  /** A condition and a log message are named by what they are compiled from. */
  datatype Armed = Armed(line: nat, condition: Option<string>, hitTarget: Option<nat>, logMessage: Option<string>, hits: nat)

  /** One statement about to run: where, which conditions hold there, and what messages render to. */
  datatype Visit = Visit(file: Option<Path>, line: nat, holds: string -> bool, render: string -> string)

  datatype Action = Action(outputs: seq<string>, stop: bool)

  const NOTHING := Action([], false)

  function Merge(first: Action, second: Action): Action {
    Action(first.outputs + second.outputs, first.stop || second.stop)
  }

  predicate Qualifies(armed: Armed, visit: Visit) {
    armed.line == visit.line && (armed.condition.Some? ==> visit.holds(armed.condition.value))
  }

  function Saturated(count: nat): nat {
    if count <= U64_MAX then count else U64_MAX
  }

  /** The counter after the visit, and what the breakpoint does if it fires. */
  function Evaluated(armed: Armed, visit: Visit): (Armed, Option<Action>) {
    if !Qualifies(armed, visit) then (armed, None)
    else
      var counted := armed.(hits := Saturated(armed.hits + 1));
      if counted.hitTarget.Some? && counted.hits != counted.hitTarget.value then (counted, None)
      else
        (counted, Some(if armed.logMessage.Some? then Action([visit.render(armed.logMessage.value)], false)
                       else Action([], true)))
  }

  // ----- Which visits a breakpoint fires on

  function After(armed: Armed, visits: seq<Visit>): Armed {
    if visits == [] then armed else Evaluated(After(armed, visits[..|visits| - 1]), visits[|visits| - 1]).0
  }

  /** Whether it fires on the last visit. */
  predicate FiresLast(armed: Armed, visits: seq<Visit>)
    requires visits != []
  {
    Evaluated(After(armed, visits[..|visits| - 1]), visits[|visits| - 1]).1.Some?
  }

  /** The visit is of the breakpoint's line, and its condition, if it has one, holds there. */
  predicate Meets(armed: Armed, visit: Visit) {
    visit.line == armed.line &&
    match armed.condition {
      case None => true
      case Some(condition) => visit.holds(condition)
    }
  }

  /** How many visits are on its line with its condition true. */
  function Count(armed: Armed, visits: seq<Visit>): nat {
    if visits == [] then 0
    else Count(armed, visits[..|visits| - 1]) + if Meets(armed, visits[|visits| - 1]) then 1 else 0
  }

  lemma {:induction false} HitsCount(armed: Armed, visits: seq<Visit>)
    requires armed.hits == 0
    ensures After(armed, visits) == armed.(hits := Saturated(Count(armed, visits)))
    decreases |visits|
  {
    if visits != [] {
      HitsCount(armed, visits[..|visits| - 1]);
    }
  }

  /** A breakpoint fires on exactly the visits it meets, or on those at which the saturating count
      of them is its target. */
  lemma FiresIff(armed: Armed, visits: seq<Visit>)
    requires armed.hits == 0 && visits != []
    ensures FiresLast(armed, visits) <==>
      && Meets(armed, visits[|visits| - 1])
      && (armed.hitTarget.Some? ==> Saturated(Count(armed, visits)) == armed.hitTarget.value)
  {
    HitsCount(armed, visits[..|visits| - 1]);
  }

  lemma {:induction false} CountGrows(armed: Armed, visits: seq<Visit>, i: nat, j: nat)
    requires i <= j <= |visits|
    ensures Count(armed, visits[..i]) <= Count(armed, visits[..j])
    decreases j
  {
    if i < j {
      CountGrows(armed, visits, i, j - 1);
      assert visits[..j][..j - 1] == visits[..j - 1];
    }
  }

  /** A hit target below the counter's ceiling is met at most once, however often its line is visited
      again. */
  lemma TargetFiresOnce(armed: Armed, visits: seq<Visit>, i: nat, j: nat)
    requires armed.hits == 0 && armed.hitTarget.Some? && armed.hitTarget.value < U64_MAX
    requires 0 < i < j <= |visits| && FiresLast(armed, visits[..i])
    ensures !FiresLast(armed, visits[..j])
  {
    FiresIff(armed, visits[..i]);
    FiresIff(armed, visits[..j]);
    CountGrows(armed, visits, i, j - 1);
    assert visits[..j][..j - 1] == visits[..j - 1];
  }

  /** And it is met as soon as enough visits qualified. */
  lemma {:induction false} TargetIsMet(armed: Armed, visits: seq<Visit>) returns (i: nat)
    requires armed.hits == 0 && armed.hitTarget.Some? && 0 < armed.hitTarget.value <= U64_MAX
    requires armed.hitTarget.value <= Count(armed, visits)
    ensures 0 < i <= |visits| && FiresLast(armed, visits[..i]) && Count(armed, visits[..i]) == armed.hitTarget.value
    decreases |visits|
  {
    var before := visits[..|visits| - 1];
    if armed.hitTarget.value <= Count(armed, before) {
      i := TargetIsMet(armed, before);
      assert visits[..i] == before[..i];
    } else {
      i := |visits|;
      assert visits[..i] == visits;
      FiresIff(armed, visits);
    }
  }

  /** At the ceiling the counter sticks, so a target there fires on every later qualifying visit. */
  lemma CeilingTargetRepeats(armed: Armed, visits: seq<Visit>)
    requires armed.hits == 0 && armed.hitTarget == Some(U64_MAX) && visits != []
    requires U64_MAX <= Count(armed, visits) && Meets(armed, visits[|visits| - 1])
    ensures FiresLast(armed, visits)
  {
    FiresIff(armed, visits);
  }

  // ----- All breakpoints of a file

  function EvaluatedAll(armed: seq<Armed>, visit: Visit): (result: (seq<Armed>, Action))
    ensures |result.0| == |armed|
  {
    if armed == [] then ([], NOTHING)
    else
      var (before, action) := EvaluatedAll(armed[..|armed| - 1], visit);
      var (last, fired) := Evaluated(armed[|armed| - 1], visit);
      (before + [last], if fired.Some? then Merge(action, fired.value) else action)
  }

  /** Each breakpoint keeps its own count, and the program stops exactly when one without a log
      message fires. */
  lemma {:induction false} StopsIff(armed: seq<Armed>, visit: Visit)
    ensures forall i :: 0 <= i < |armed| ==> EvaluatedAll(armed, visit).0[i] == Evaluated(armed[i], visit).0
    ensures EvaluatedAll(armed, visit).1.stop <==>
      exists i :: 0 <= i < |armed| && Evaluated(armed[i], visit).1.Some? && armed[i].logMessage.None?
    decreases |armed|
  {
    if armed != [] {
      StopsIff(armed[..|armed| - 1], visit);
    }
  }

  /** The messages of the log points that fire on the visit, rendered, in the order they are armed. */
  function Logged(armed: seq<Armed>, fires: seq<bool>, visit: Visit): seq<string>
    requires |fires| == |armed|
  {
    if armed == [] then []
    else
      var n := |armed| - 1;
      Logged(armed[..n], fires[..n], visit) +
      if fires[n] && armed[n].logMessage.Some? then [visit.render(armed[n].logMessage.value)] else []
  }

  /** The visit outputs exactly those messages: a log point logs and does not stop, a plain breakpoint
      stops and does not log. */
  lemma {:induction false} OutputsAreLogged(armed: seq<Armed>, fires: seq<bool>, visit: Visit)
    requires |fires| == |armed|
    requires forall i :: 0 <= i < |armed| ==> fires[i] == Evaluated(armed[i], visit).1.Some?
    ensures EvaluatedAll(armed, visit).1.outputs == Logged(armed, fires, visit)
    decreases |armed|
  {
    if armed != [] {
      OutputsAreLogged(armed[..|armed| - 1], fires[..|armed| - 1], visit);
    }
  }

  class ArmedBreakpoints {
    var breakpointsByFile: map<Path, seq<Armed>>

    constructor ()
      ensures breakpointsByFile == map[]
    {
      breakpointsByFile := map[];
    }

    /** A breakpoint already armed is not armed twice. */
    method Insert(file: Path, breakpoint: Armed)
      modifies this
      ensures breakpointsByFile.Keys == old(breakpointsByFile).Keys + {file}
      ensures forall other :: other in old(breakpointsByFile) && other != file ==>
        breakpointsByFile[other] == old(breakpointsByFile)[other]
      ensures var before := if file in old(breakpointsByFile) then old(breakpointsByFile)[file] else [];
        breakpointsByFile[file] == if breakpoint in before then before else before + [breakpoint]
    {
      var breakpoints := if file in breakpointsByFile then breakpointsByFile[file] else [];
      if breakpoint !in breakpoints {
        breakpoints := breakpoints + [breakpoint];
      }
      breakpointsByFile := breakpointsByFile[file := breakpoints];
    }

    /** A visit counts at the breakpoints of its own file only. */
    method Evaluate(visit: Visit) returns (action: Action)
      modifies this
      ensures visit.file.None? || visit.file.value !in old(breakpointsByFile) ==>
        action == NOTHING && breakpointsByFile == old(breakpointsByFile)
      ensures visit.file.Some? && visit.file.value in old(breakpointsByFile) ==>
        var (armed, merged) := EvaluatedAll(old(breakpointsByFile)[visit.file.value], visit);
        action == merged && breakpointsByFile == old(breakpointsByFile)[visit.file.value := armed]
    {
      if visit.file.None? || visit.file.value !in breakpointsByFile {
        return NOTHING;
      }
      var armed := breakpointsByFile[visit.file.value];
      var counted: seq<Armed> := [];
      action := NOTHING;
      for i := 0 to |armed|
        invariant (counted, action) == EvaluatedAll(armed[..i], visit)
      {
        assert armed[..i + 1][..i] == armed[..i];
        var (breakpoint, fired) := Evaluated(armed[i], visit);
        counted := counted + [breakpoint];
        if fired.Some? {
          action := Merge(action, fired.value);
        }
      }
      assert armed[..|armed|] == armed;
      breakpointsByFile := breakpointsByFile[visit.file.value := counted];
    }
  }
}
