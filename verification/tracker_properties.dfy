/** Properties of the tracker that relate several operations: the shape of
    the step queue every operation keeps, that closing a step loses or
    duplicates no step, and the order in which well-nested steps end up in
    the report. */
module TrackerProperties {
  import opened Base
  import opened Models
  import opened Tracker
  import Attachments
  import Writer
  import Wire

  // ---- the shape of the step queue ----

  /** A finished step whose nested steps are finished too, recursively.
      Like every step the tracker creates, it holds no attachments. */
  predicate ClosedTree(s: Step) {
    && s.stage == FINISHED
    && s.attachments == []
    && forall i | 0 <= i < |s.children| :: ClosedTree(s.children[i])
  }

  /** A step still running: no stop time yet, no attachments, and only
      finished nested steps. */
  predicate OpenStep(s: Step) {
    && s.stage == RUNNING
    && s.stop == 0
    && s.attachments == []
    && forall i | 0 <= i < |s.children| :: ClosedTree(s.children[i])
  }

  /** The queue is a run of finished trees followed by a run of running
      steps, outermost first. */
  predicate WellFormed(steps: seq<Step>) {
    && (forall i | 0 <= i < |steps| :: ClosedTree(steps[i]) || OpenStep(steps[i]))
    && (forall i, j | 0 <= i < j < |steps| && steps[i].stage == RUNNING :: steps[j].stage == RUNNING)
  }

  lemma StartTestIsWellFormed(id: Uuid, name: string, suite: Option<string>, modulePath: Option<string>)
    ensures WellFormed(StartTestWithContext(id, name, suite, modulePath).steps)
  {
  }

  lemma StartStepKeepsWellFormed(ctx: Context, name: string, parameters: seq<Parameter>, now: int)
    requires WellFormed(ctx.steps)
    ensures WellFormed(StartStepWithParams(ctx, name, parameters, now).steps)
  {
  }

  /** Closing a step that was well formed gives a finished tree. */
  lemma CloseStepIsClosed(s: Step, outcome: Outcome, now: int)
    requires ClosedTree(s) || OpenStep(s)
    ensures ClosedTree(CloseStep(s, outcome, now))
  {
    var r := CloseStep(s, outcome, now);
    assert r.children == s.children;
  }

  /** Closing a step keeps the queue's shape, whichever way it is routed. */
  lemma EndStepKeepsWellFormed(ctx: Context, outcome: Outcome, now: int)
    requires WellFormed(ctx.steps)
    ensures WellFormed(EndStep(ctx, outcome, now).steps)
  {
    var n := |ctx.steps|;
    if n > 0 {
      var r := EndStep(ctx, outcome, now).steps;
      var closed := CloseStep(ctx.steps[n - 1], outcome, now);
      CloseStepIsClosed(ctx.steps[n - 1], outcome, now);
      if n > 1 && ctx.steps[n - 2].stage == RUNNING {
        assert OpenStep(ctx.steps[n - 2]);
        assert forall i | 0 <= i < n - 2 :: r[i] == ctx.steps[i];
        assert OpenStep(r[n - 2]);
      } else {
        assert forall i | 0 < i < n :: r[i] == ctx.steps[i - 1];
      }
    }
  }

  lemma AttachmentKeepsWellFormed(ctx: Context, store: Writer.FileStore, env: Writer.Environment, id: Uuid,
                                  name: string, content: Attachments.Content,
                                  kind: Attachments.AttachmentType, pretty: Wire.Json -> seq<byte>)
    requires WellFormed(ctx.steps)
    ensures WellFormed(AttachAs(ctx, store, env, id, name, content, kind, pretty).ctx.steps)
  {
  }

  /** Attachments are always added to the test's own list, even while steps
      are open: the innermost open step keeps the attachments it had. */
  lemma AttachmentWhileStepOpenGoesToTest(ctx: Context, store: Writer.FileStore, env: Writer.Environment,
                                          id: Uuid, name: string, content: Attachments.Content,
                                          pretty: Wire.Json -> seq<byte>)
    requires WellFormed(ctx.steps) && |ctx.steps| > 0 && Last(ctx.steps).stage == RUNNING
    ensures var r := AddAttachment(ctx, store, env, id, name, content, pretty).ctx;
      && Last(r.steps).stage == RUNNING
      && Last(r.steps).attachments == []
      && |r.attachments| == |ctx.attachments| + 1
      && r.attachments[|ctx.attachments|].name == name
  {
    assert OpenStep(Last(ctx.steps));
  }

  // ---- no step is lost ----

  /** The number of steps in a tree, the root included. */
  function Count(s: Step): nat {
    1 + CountAll(s.children)
  }

  /** The number of steps in a list of trees. */
  function CountAll(ss: seq<Step>): nat {
    if |ss| == 0 then 0 else Count(ss[0]) + CountAll(ss[1..])
  }

  lemma {:induction false} CountAllAppend(a: seq<Step>, b: seq<Step>)
    ensures CountAll(a + b) == CountAll(a) + CountAll(b)
    decreases |a|
  {
    if |a| == 0 {
      assert a + b == b;
    } else {
      assert (a + b)[1..] == a[1..] + b;
      CountAllAppend(a[1..], b);
    }
  }

  /** Closing a step moves it but neither drops nor copies any step: the
      queue holds as many steps, nested ones included, as before. */
  lemma EndStepKeepsEveryStep(ctx: Context, outcome: Outcome, now: int)
    ensures CountAll(EndStep(ctx, outcome, now).steps) == CountAll(ctx.steps)
  {
    if |ctx.steps| > 0 {
      var rest := ctx.steps[..|ctx.steps| - 1];
      var popped := Last(ctx.steps);
      var closed := CloseStep(popped, outcome, now);
      assert ctx.steps == rest + [popped];
      CountAllAppend(rest, [popped]);
      assert CountAll([popped]) == Count(popped);
      assert Count(closed) == Count(popped);
      var r := EndStep(ctx, outcome, now).steps;
      if |rest| > 0 && Last(rest).stage == RUNNING {
        var parent := Last(rest);
        var front := rest[..|rest| - 1];
        var grown := parent.(children := parent.children + [closed]);
        assert r == front + [grown];
        assert rest == front + [parent];
        CountAllAppend(front, [grown]);
        CountAllAppend(front, [parent]);
        assert CountAll([grown]) == Count(grown);
        assert CountAll([parent]) == Count(parent);
        CountAllAppend(parent.children, [closed]);
        assert CountAll([closed]) == Count(closed);
      } else {
        assert r == [closed] + rest;
        CountAllAppend([closed], rest);
        assert CountAll([closed]) == Count(closed);
      }
    }
  }

  // ---- well-nested steps ----

  /** A step call as the instrumentation makes it: open the step at `start`,
      run the nested calls of its body in order, close it at `stop` with the
      body's outcome. */
  datatype Call = Call(
    name: string,
    parameters: seq<Parameter>,
    start: int,
    stop: int,
    outcome: Outcome,
    body: seq<Call>)

  function RunCall(ctx: Context, c: Call): Context
    decreases c
  {
    EndStep(RunCalls(StartStepWithParams(ctx, c.name, c.parameters, c.start), c.body), c.outcome, c.stop)
  }

  function RunCalls(ctx: Context, cs: seq<Call>): Context
    decreases cs
  {
    if |cs| == 0 then ctx else RunCalls(RunCall(ctx, cs[0]), cs[1..])
  }

  /** The step a call is reported as: finished, passed or failed with the
      panic's message, its nested calls as children in call order, and no
      attachments. */
  function Reported(c: Call): Step
    decreases c
  {
    Step(c.name,
         if c.outcome.Ok? then Passed else Failed,
         if c.outcome.Ok? then None else Some(FailureDetails(c.outcome.payload, STEP_FALLBACK)),
         FINISHED, c.start, c.stop,
         ReportedAll(c.body),
         [], c.parameters)
  }

  /** The steps a list of calls is reported as, in call order. */
  function ReportedAll(cs: seq<Call>): seq<Step>
    decreases cs
  {
    if |cs| == 0 then [] else [Reported(cs[0])] + ReportedAll(cs[1..])
  }

  /** The i-th reported step is the i-th call's. */
  lemma {:induction false} ReportedAllAt(cs: seq<Call>, i: int)
    requires 0 <= i < |cs|
    ensures |ReportedAll(cs)| == |cs| && ReportedAll(cs)[i] == Reported(cs[i])
    decreases cs
  {
    ReportedAllLength(cs);
    if i > 0 {
      ReportedAllAt(cs[1..], i - 1);
    }
  }

  lemma {:induction false} ReportedAllLength(cs: seq<Call>)
    ensures |ReportedAll(cs)| == |cs|
    decreases cs
  {
    if |cs| > 0 {
      ReportedAllLength(cs[1..]);
    }
  }

  lemma ReportedAllPair(a: Call, b: Call)
    ensures ReportedAll([a, b]) == [Reported(a), Reported(b)]
  {
    assert [a, b][1..] == [b];
    assert [b][1..] == [];
    assert ReportedAll([b]) == [Reported(b)] + ReportedAll([]);
  }

  /** A call run below a running step becomes that step's last child. */
  lemma {:induction false} RunCallUnderParent(ctx: Context, front: seq<Step>, parent: Step, c: Call)
    requires ctx.steps == front + [parent] && parent.stage == RUNNING
    ensures RunCall(ctx, c) == ctx.(steps := front + [parent.(children := parent.children + [Reported(c)])])
    decreases c
  {
    var started := StartStepWithParams(ctx, c.name, c.parameters, c.start);
    var begun := Step(c.name, Passed, None, RUNNING, c.start, 0, [], [], c.parameters);
    assert started.steps == (front + [parent]) + [begun];
    RunCallsUnderParent(started, front + [parent], begun, c.body);
    var ran := RunCalls(started, c.body);
    var grown := begun.(children := [] + ReportedAll(c.body));
    assert ran.steps == (front + [parent]) + [grown];
    assert CloseStep(grown, c.outcome, c.stop) == Reported(c);
    assert ran.steps[..|ran.steps| - 1] == front + [parent];
  }

  /** Calls run in order below a running step become its last children, in
      the order they were made. */
  lemma {:induction false} RunCallsUnderParent(ctx: Context, front: seq<Step>, parent: Step, cs: seq<Call>)
    requires ctx.steps == front + [parent] && parent.stage == RUNNING
    ensures RunCalls(ctx, cs) == ctx.(steps := front + [parent.(children := parent.children + ReportedAll(cs))])
    decreases cs
  {
    if |cs| == 0 {
      assert parent.children + ReportedAll(cs) == parent.children;
      assert parent.(children := parent.children) == parent;
    } else {
      var grown := parent.(children := parent.children + [Reported(cs[0])]);
      RunCallUnderParent(ctx, front, parent, cs[0]);
      var next := RunCall(ctx, cs[0]);
      assert next == ctx.(steps := front + [grown]);
      RunCallsUnderParent(next, front, grown, cs[1..]);
      AppendChildren(parent, cs);
      assert RunCalls(ctx, cs) == RunCalls(next, cs[1..]);
    }
  }

  /** Adding the first call's step and then the others' is adding them all. */
  lemma AppendChildren(parent: Step, cs: seq<Call>)
    requires |cs| > 0
    ensures var grown := parent.(children := parent.children + [Reported(cs[0])]);
      grown.(children := grown.children + ReportedAll(cs[1..]))
        == parent.(children := parent.children + ReportedAll(cs))
  {
    assert parent.children + [Reported(cs[0])] + ReportedAll(cs[1..]) == parent.children + ReportedAll(cs);
  }

  /** No step of the queue is running. */
  predicate NothingRunning(steps: seq<Step>) {
    forall i | 0 <= i < |steps| :: steps[i].stage != RUNNING
  }

  /** A call made while no step runs ends up at the front of the queue. */
  lemma RunCallAtTopLevel(ctx: Context, c: Call)
    requires NothingRunning(ctx.steps)
    ensures RunCall(ctx, c) == ctx.(steps := [Reported(c)] + ctx.steps)
  {
    var started := StartStepWithParams(ctx, c.name, c.parameters, c.start);
    var begun := Step(c.name, Passed, None, RUNNING, c.start, 0, [], [], c.parameters);
    assert started.steps == ctx.steps + [begun];
    RunCallsUnderParent(started, ctx.steps, begun, c.body);
    var ran := RunCalls(started, c.body);
    var grown := begun.(children := [] + ReportedAll(c.body));
    assert ran.steps == ctx.steps + [grown];
    assert CloseStep(grown, c.outcome, c.stop) == Reported(c);
    assert ran.steps[..|ran.steps| - 1] == ctx.steps;
  }

  function Reverse<T>(s: seq<T>): (r: seq<T>)
    ensures |r| == |s| && forall i | 0 <= i < |s| :: r[i] == s[|s| - 1 - i]
  {
    if |s| == 0 then [] else Reverse(s[1..]) + [s[0]]
  }

  /** Reversing puts the first call's step last. */
  lemma ReverseFirstLast(cs: seq<Call>, tail: seq<Step>)
    requires |cs| > 0
    ensures Reverse(ReportedAll(cs[1..])) + ([Reported(cs[0])] + tail) == Reverse(ReportedAll(cs)) + tail
  {
    assert ReportedAll(cs)[1..] == ReportedAll(cs[1..]);
    assert Reverse(ReportedAll(cs)) == Reverse(ReportedAll(cs[1..])) + [Reported(cs[0])];
  }

  /** Calls made one after another while no step runs are reported in the
      reverse of the order they were made: each is pushed to the front. */
  lemma {:induction false} RunCallsAtTopLevel(ctx: Context, cs: seq<Call>)
    requires NothingRunning(ctx.steps)
    ensures RunCalls(ctx, cs) == ctx.(steps := Reverse(ReportedAll(cs)) + ctx.steps)
    decreases cs
  {
    if |cs| == 0 {
      assert Reverse(ReportedAll(cs)) + ctx.steps == ctx.steps;
    } else {
      RunCallAtTopLevel(ctx, cs[0]);
      var next := RunCall(ctx, cs[0]);
      assert NothingRunning(next.steps);
      RunCallsAtTopLevel(next, cs[1..]);
      ReverseFirstLast(cs, ctx.steps);
    }
  }

  /** Two steps run one after the other in a fresh test are reported second
      first. */
  lemma SequentialStepsReversed(id: Uuid, name: string, a: Call, b: Call)
    ensures RunCalls(StartTest(id, name), [a, b]).steps == [Reported(b), Reported(a)]
  {
    RunCallsAtTopLevel(StartTest(id, name), [a, b]);
    ReportedAllPair(a, b);
  }

  /** Two steps run inside a third are its children in the order they ran,
      and the outer step is the only top-level step. */
  lemma NestedStepsInOrder(id: Uuid, name: string, outer: Call, a: Call, b: Call)
    requires outer.body == [a, b]
    ensures var steps := RunCall(StartTest(id, name), outer).steps;
      && |steps| == 1 && steps[0].children == [Reported(a), Reported(b)]
  {
    RunCallAtTopLevel(StartTest(id, name), outer);
    ReportedAllPair(a, b);
  }

  /** Every reported step is a finished tree without attachments. */
  lemma {:induction false} ReportedIsClosed(c: Call)
    ensures ClosedTree(Reported(c))
    decreases c
  {
    var r := Reported(c);
    ReportedAllLength(c.body);
    forall i | 0 <= i < |r.children|
      ensures ClosedTree(r.children[i])
    {
      ReportedAllAt(c.body, i);
      ReportedIsClosed(c.body[i]);
    }
  }

  /** A whole test of well-nested steps: the result lists the top-level
      steps in reverse order of completion, every one of them finished, and
      the status reflects only the test's own outcome. A `Call` opens and
      closes steps only and records no attachment, so the test's attachment
      list is still the empty one the test started with. */
  lemma TestOfWellNestedSteps(id: Uuid, historyId: Uuid, name: string, cs: seq<Call>, outcome: Outcome, now: int)
    ensures var r := BuildResult(RunCalls(StartTest(id, name), cs), historyId, name, outcome, now);
      && r.steps == Reverse(ReportedAll(cs))
      && (forall i | 0 <= i < |r.steps| :: ClosedTree(r.steps[i]))
      && (r.status == Passed <==> outcome.Ok?)
      && r.attachments == []
  {
    RunCallsAtTopLevel(StartTest(id, name), cs);
    var reported := ReportedAll(cs);
    ReportedAllLength(cs);
    forall i | 0 <= i < |reported|
      ensures ClosedTree(reported[i])
    {
      ReportedAllAt(cs, i);
      ReportedIsClosed(cs[i]);
    }
  }
}
