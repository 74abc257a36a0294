// Workflow definitions: steps as stored, and the control flow they induce.
module Workflow {
  import opened Walk

  // A step's type; anything unrecognised is skipped.
  datatype StepType = ChannelStep | DelayStep | ConditionStep | OtherStep(name: string)

  datatype Step = Step(
    id: string,
    kind: StepType,
    channel: string,
    templateId: string,
    delaySeconds: int,
    condition: string,
    trueStep: string,
    falseStep: string,
    nextStep: string
  )

  // The truth value of each condition on a run's fixed payload.
  type Verdict = string -> bool

  // ---- Resolving step ids ----

  // Later steps shadow earlier ones with the same id; -1 when no step has it.
  function LastIndex(steps: seq<Step>, id: string): (r: int)
    ensures -1 <= r < |steps|
    ensures r >= 0 ==> steps[r].id == id
    ensures forall j :: r < j < |steps| ==> steps[j].id != id
  {
    if steps == [] then -1
    else if steps[|steps| - 1].id == id then |steps| - 1
    else LastIndex(steps[..|steps| - 1], id)
  }

  predicate Known(steps: seq<Step>, id: string) {
    id != "" && LastIndex(steps, id) >= 0
  }

  // Exactly the nonempty ids, each at its last position.
  ghost predicate IsIndex(index: map<string, nat>, steps: seq<Step>) {
    && (forall id :: id in index <==> Known(steps, id))
    && (forall id :: id in index ==> index[id] == LastIndex(steps, id))
  }

  // The id table the engine builds before walking.
  method BuildIndex(steps: seq<Step>) returns (index: map<string, nat>)
    ensures IsIndex(index, steps)
  {
    index := map[];
    for i := 0 to |steps|
      invariant IsIndex(index, steps[..i])
    {
      assert steps[..i + 1][..i] == steps[..i];
      if steps[i].id != "" {
        index := index[steps[i].id := i];
      }
    }
    assert steps[..|steps|] == steps;
  }

  // ---- Control flow ----

  // The step after a channel or delay step: the named one if it is known, else the next in order.
  function NextIndex(steps: seq<Step>, i: nat): (r: nat)
    requires i < |steps|
    ensures r <= |steps|
  {
    if Known(steps, steps[i].nextStep) then LastIndex(steps, steps[i].nextStep) else i + 1
  }

  // The step after a condition: the branch taken, the next step when the branch names none, and the end of the
  // run when it names an unknown one.
  function BranchIndex(steps: seq<Step>, i: nat, result: bool): (r: nat)
    requires i < |steps|
    ensures r <= |steps|
  {
    var target := if result then steps[i].trueStep else steps[i].falseStep;
    if target == "" then i + 1
    else if Known(steps, target) then LastIndex(steps, target)
    else |steps|
  }

  function NodeOf(steps: seq<Step>, verdict: Verdict, i: nat): (n: Node)
    requires i < |steps|
    ensures n.next <= |steps|
  {
    match steps[i].kind
    case ChannelStep => Node(NextIndex(steps, i), Channel)
    case DelayStep => Node(NextIndex(steps, i), Delay)
    case ConditionStep => Node(BranchIndex(steps, i, verdict(steps[i].condition)), Plain)
    case OtherStep(_) => Node(i + 1, Plain)
  }

  function FlowOf(steps: seq<Step>, verdict: Verdict): (f: Flow)
    ensures |f| == |steps|
    ensures forall i :: 0 <= i < |f| ==> f[i] == NodeOf(steps, verdict, i)
  {
    seq(|steps|, i requires 0 <= i < |steps| => NodeOf(steps, verdict, i))
  }

  // ---- Where a step leads, in its own terms ----

  ghost predicate LastWithId(steps: seq<Step>, id: string, j: nat) {
    j < |steps| && steps[j].id == id && forall k :: j < k < |steps| ==> steps[k].id != id
  }

  ghost predicate NoneWithId(steps: seq<Step>, id: string) {
    forall k :: 0 <= k < |steps| ==> steps[k].id != id
  }

  // A condition leads to the last step that carries the id of the branch taken, to the end of the run when none does,
  // and to the next step when the branch is empty. Channel and delay steps lead to the last step that carries the id
  // they name, and otherwise to the next. Steps of any other type lead to the next.
  ghost predicate LeadsTo(steps: seq<Step>, holds: bool, i: nat, next: nat)
    requires i < |steps|
  {
    var step := steps[i];
    && (step.kind.ConditionStep? && holds ==>
          if step.trueStep == "" then next == i + 1
          else if NoneWithId(steps, step.trueStep) then next == |steps| else LastWithId(steps, step.trueStep, next))
    && (step.kind.ConditionStep? && !holds ==>
          if step.falseStep == "" then next == i + 1
          else if NoneWithId(steps, step.falseStep) then next == |steps| else LastWithId(steps, step.falseStep, next))
    && (step.kind.ChannelStep? || step.kind.DelayStep? ==>
          if step.nextStep == "" || NoneWithId(steps, step.nextStep) then next == i + 1
          else LastWithId(steps, step.nextStep, next))
    && (step.kind.OtherStep? ==> next == i + 1)
  }

  lemma KnownMeans(steps: seq<Step>, id: string)
    requires id != ""
    ensures Known(steps, id) <==> !NoneWithId(steps, id)
    ensures Known(steps, id) ==> LastWithId(steps, id, LastIndex(steps, id))
  {
  }

  // The control flow sends each step there, and knows channel steps and delays for what they are.
  lemma {:induction false} FlowLeads(steps: seq<Step>, verdict: Verdict, i: nat)
    requires i < |steps|
    ensures LeadsTo(steps, verdict(steps[i].condition), i, FlowOf(steps, verdict)[i].next)
    ensures FlowOf(steps, verdict)[i].mark.Channel? <==> steps[i].kind.ChannelStep?
    ensures FlowOf(steps, verdict)[i].mark.Delay? <==> steps[i].kind.DelayStep?
  {
    assert FlowOf(steps, verdict)[i] == NodeOf(steps, verdict, i);
    forall id | id in {steps[i].nextStep, steps[i].trueStep, steps[i].falseStep} && id != ""
      ensures Known(steps, id) <==> !NoneWithId(steps, id)
      ensures Known(steps, id) ==> LastWithId(steps, id, LastIndex(steps, id))
    {
      KnownMeans(steps, id);
    }
  }

  // A stored index before the first step counts as the first; one past the end is past the end.
  function ClampStart(start: int): nat {
    if start < 0 then 0 else start
  }

  // ---- Forward-only workflows ----

  // Every id a step names that resolves at all resolves to a later step.
  ghost predicate ForwardOnly(steps: seq<Step>) {
    forall i, id | 0 <= i < |steps| && Known(steps, id)
                   && (id == steps[i].nextStep || id == steps[i].trueStep || id == steps[i].falseStep) ::
      LastIndex(steps, id) > i
  }

  // Whatever the conditions say and whatever index was stored, a forward-only workflow ends completed: it walks at
  // most n steps over all its passes, pauses at most once at each delay step, and never trips the guard.
  lemma ForwardOnlyCompletes(steps: seq<Step>, verdict: Verdict, start: int) returns (r: nat)
    requires ForwardOnly(steps)
    ensures var f := FlowOf(steps, verdict); var i := ClampStart(start);
            && Play(f, i, r).Done?
            && r <= |DelaySteps(f)|
            && StrictlyIncreasing(Play(f, i, r).pausedAt)
            && At(f, i, |steps|) >= |steps|
            && Play(f, i, r).visits == Trace(f, i, |steps|)
  {
    var f := FlowOf(steps, verdict);
    forall i | 0 <= i < |f| ensures f[i].next > i {
      assert f[i] == NodeOf(steps, verdict, i);
    }
    r := ForwardRunCompletes(f, ClampStart(start));
  }

  // ---- Editing a paused workflow ----

  // Two versions of a workflow.

  // A delay and then a step of no known type.
  function Written(): seq<Step> {
    [Step("", DelayStep, "", "", 0, "", "", "", ""), Step("", OtherStep("noop"), "", "", 0, "", "", "", "")]
  }

  // A jump to the end, over a step that jumps to itself.
  function Edited(): seq<Step> {
    var toEnd := Step("", ConditionStep, "", "", 0, "", "gone", "gone", "");
    var loop := Step("loop", ConditionStep, "", "", 0, "", "loop", "loop", "");
    [toEnd, loop]
  }

  lemma AsEdited(v: Verdict)
    ensures Completes(FlowOf(Edited(), v), 0) && Segment(FlowOf(Edited(), v), 1, 0).GuardTripped?
  {
    var g := FlowOf(Edited(), v);
    assert g[0] == Node(2, Plain) && g[1] == Node(1, Plain) by {
      assert g[0] == NodeOf(Edited(), v, 0) && g[1] == NodeOf(Edited(), v, 1);
      assert !Known(Edited(), "gone") && LastIndex(Edited(), "loop") == 1;
    }
    assert Segment(g, 0, 0) == Finished([]) by { assert Segment(g, 2, 1) == Finished([]); }
    assert Play(g, 0, 0).Done?;
    forall j: nat ensures !Stops(g, At(g, 1, j)) {
      SelfLoopStays(g, 1, j);
    }
    GuardExact(g, 1);
  }

  lemma {:induction false} SelfLoopStays(f: Flow, i: nat, j: nat)
    requires i < |f| && f[i].next == i
    ensures At(f, i, j) == i
  {
    if j > 0 {
      SelfLoopStays(f, i, j - 1);
    }
  }
}
