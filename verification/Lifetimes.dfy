// Runs through whole histories, whatever else goes on: which trigger started each, and where it has got to.
module Lifetimes {
  import opened Faults
  import opened Walk
  import opened Workflow
  import opened Engine
  import opened RunSemantics
  import opened Transparency
  import opened Wakeup
  import opened Tokens
  import Condition

  // ---- Births ----

  // A committed delivery of a trigger event that found an active workflow.
  predicate IsStart(s: System, a: Action) {
    && a.Deliver? && a.message.event.run.NoRun? && Handled(s.store, a.message.event, a.env).committed
    && Active(s.store, a.env.pick, a.message.event)
  }

  datatype Start = Start(run: nat, message: Envelope)

  function Starts(actions: seq<Action>): seq<Start> {
    if actions == [] then []
    else
      var front, a := actions[..|actions| - 1], actions[|actions| - 1];
      var s := RunAll(START, front);
      Starts(front) + if IsStart(s, a) then [Start(s.store.nextId, a.message)] else []
  }

  ghost predicate HasStart(starts: seq<Start>, r: nat) {
    exists k :: 0 <= k < |starts| && starts[k].run == r
  }

  ghost predicate OnePerStart(runs: map<nat, Run>, starts: seq<Start>, nextId: nat) {
    && (forall r :: r in runs ==> HasStart(starts, r))
    && (forall k :: 0 <= k < |starts| ==> starts[k].run in runs && starts[k].run < nextId)
    && (forall j, k :: 0 <= j < k < |starts| ==> starts[j].run != starts[k].run)
  }

  // The run was made from the event: its tenant, its subscriber, its name, its payload.
  predicate MadeFrom(row: Run, ev: Event) {
    row.tenant == ev.tenant && row.subscriber == ev.subscriber && row.trigger == ev.name && row.payload == ev.payload
  }

  ghost predicate AllMadeFrom(runs: map<nat, Run>, starts: seq<Start>) {
    forall k | 0 <= k < |starts| && starts[k].run in runs :: MadeFrom(runs[starts[k].run], starts[k].message.event)
  }

  // No step but a start changes which runs there are, and none changes what a run was made from.
  ghost predicate SameMakings(a: map<nat, Run>, b: map<nat, Run>) {
    forall r | r in a :: r in b && SameRun(b[r], a[r])
  }

  // At most the resume time of the run's row has changed.
  predicate RowHeld(before: map<nat, Run>, after: map<nat, Run>, r: nat)
    requires r in before
  {
    r in after && after[r] == before[r].(resumeAt := after[r].resumeAt)
  }

  lemma {:induction false} TurnHoldsRow(tx: Tx, tenant: string, run: nat, faults: seq<Fault>, r: nat)
    requires r in tx.store.runs
    ensures RowHeld(tx.store.runs, TurnOf(tx, tenant, run, faults).tx.store.runs, r)
  {
  }

  lemma {:induction false} TickKeepsRow(tx: Tx, tenant: string, batch: seq<nat>, faults: seq<Fault>, r: nat)
    requires r in tx.store.runs
    ensures RowHeld(tx.store.runs, TickRuns(tx, tenant, batch, faults).tx.store.runs, r)
    decreases batch
  {
    if batch != [] {
      TurnHoldsRow(tx, tenant, batch[0], faults, r);
      TickKeepsRow(TurnOf(tx, tenant, batch[0], faults).tx, tenant, batch[1..], faults, r);
    }
  }

  lemma {:induction false} OtherDeliveryKeepsRow(s: System, a: Action, r: nat)
    requires Orderly(s.store) && r in s.store.runs && a.Deliver? && !IsPass(s, a, r)
    ensures RowHeld(s.store.runs, Next(s, a).store.runs, r)
  {
    HandledRuns(s.store, a.message.event, a.env);
  }

  // A step that is no pass of the run changes at most its resume time.
  lemma {:induction false} OtherStepKeepsRow(s: System, a: Action, r: nat)
    requires Orderly(s.store) && r in s.store.runs && !IsPass(s, a, r)
    ensures RowHeld(s.store.runs, Next(s, a).store.runs, r)
  {
    if a.Deliver? {
      OtherDeliveryKeepsRow(s, a, r);
    } else if a.Tick? {
      TickKeepsRow(Statement(BeginTx(s.store, a.faults), a.faults, true), a.tenant, a.batch, a.faults, r);
    }
  }

  lemma {:induction false} PassKeepsMaking(s: System, a: Action, r: nat)
    requires r in s.store.runs && IsPass(s, a, r)
    ensures r in Next(s, a).store.runs && SameRun(Next(s, a).store.runs[r], s.store.runs[r])
  {
    HandledRuns(s.store, a.message.event, a.env);
  }

  lemma {:induction false} MakingsStay(s: System, a: Action)
    requires Orderly(s.store)
    ensures SameMakings(s.store.runs, Next(s, a).store.runs)
  {
    forall r | r in s.store.runs
      ensures r in Next(s, a).store.runs && SameRun(Next(s, a).store.runs[r], s.store.runs[r])
    {
      if IsPass(s, a, r) {
        PassKeepsMaking(s, a, r);
      } else {
        OtherStepKeepsRow(s, a, r);
      }
    }
  }

  // The run a start adds, or none.
  ghost predicate Adds(s: Store, t: Store, start: bool, ev: Event) {
    && s.nextId <= t.nextId
    && t.runs.Keys == s.runs.Keys + (if start then {s.nextId} else {})
    && (start ==> s.nextId < t.nextId && MadeFrom(t.runs[s.nextId], ev))
  }

  lemma {:induction false} StartAdds(s: Store, ev: Event, env: Env)
    requires ev.run.NoRun? && Handled(s, ev, env).committed && Active(s, env.pick, ev)
    ensures Adds(s, Handled(s, ev, env).store, true, ev)
  {
    HandledExact(s, ev, env);
    var steps := s.workflows[env.pick].steps;
    var served := Served(steps, s.matrix, ev, PassOutcome(ev, steps, 0, env).visits);
    SentAllFrame(Started(s, ev, env.pick), ev, served, s.nextId);
  }

  lemma {:induction false} OtherDeliveryAddsNone(s: Store, ev: Event, env: Env)
    requires Orderly(s) && Backed(s)
    requires ev.run.OfRun? || !Handled(s, ev, env).committed || !Active(s, env.pick, ev)
    ensures Adds(s, Handled(s, ev, env).store, false, ev)
  {
    HandledBalanced(s, ev, env);
    HandledRuns(s, ev, env);
  }

  // A start adds one run under the next id, made from its event; no other step adds any.
  lemma {:induction false} StepAdds(s: System, a: Action)
    requires Orderly(s.store) && Backed(s.store)
    ensures IsStart(s, a) ==> Adds(s.store, Next(s, a).store, true, a.message.event)
    ensures !IsStart(s, a) ==>
              s.store.nextId <= Next(s, a).store.nextId && Next(s, a).store.runs.Keys == s.store.runs.Keys
  {
    if IsStart(s, a) {
      StartAdds(s.store, a.message.event, a.env);
    } else if a.Deliver? {
      OtherDeliveryAddsNone(s.store, a.message.event, a.env);
    } else if a.Tick? {
      TickFrame(s, a);
    }
  }

  lemma {:induction false} HasStartLater(starts: seq<Start>, x: Start, r: nat)
    requires HasStart(starts, r) || x.run == r
    ensures HasStart(starts + [x], r)
  {
    if HasStart(starts, r) {
      var k :| 0 <= k < |starts| && starts[k].run == r;
      assert (starts + [x])[k].run == r;
    } else {
      assert (starts + [x])[|starts|].run == r;
    }
  }

  lemma {:induction false} StartAppended(
    runs: map<nat, Run>, more: map<nat, Run>, starts: seq<Start>, nextId: nat, nextId': nat, x: Start
  )
    requires OnePerStart(runs, starts, nextId) && AllMadeFrom(runs, starts) && SameMakings(runs, more)
    requires x.run == nextId < nextId' && more.Keys == runs.Keys + {nextId} && MadeFrom(more[nextId], x.message.event)
    ensures OnePerStart(more, starts + [x], nextId') && AllMadeFrom(more, starts + [x])
  {
    forall r | r in more ensures HasStart(starts + [x], r) {
      HasStartLater(starts, x, r);
    }
    assert AllMadeFrom(more, starts);
  }

  lemma {:induction false} StartsKept(
    runs: map<nat, Run>, more: map<nat, Run>, starts: seq<Start>, nextId: nat, nextId': nat
  )
    requires OnePerStart(runs, starts, nextId) && AllMadeFrom(runs, starts) && SameMakings(runs, more)
    requires nextId <= nextId' && more.Keys == runs.Keys
    ensures OnePerStart(more, starts, nextId') && AllMadeFrom(more, starts)
  {
  }

  // In every reachable state, whatever failed, there is exactly one run for each committed delivery of a trigger event
  // that found an active workflow, made from that event.
  lemma {:induction false} RunsAreStarts(actions: seq<Action>)
    requires Legal(START, actions)
    ensures var s := RunAll(START, actions);
            OnePerStart(s.store.runs, Starts(actions), s.store.nextId) && AllMadeFrom(s.store.runs, Starts(actions))
  {
    if actions != [] {
      var front, a := actions[..|actions| - 1], actions[|actions| - 1];
      var s := RunAll(START, front);
      RunsAreStarts(front);
      AlwaysCoherent(front);
      StepAdds(s, a);
      MakingsStay(s, a);
      var t := Next(s, a);
      if IsStart(s, a) {
        StartAppended(s.store.runs, t.store.runs, Starts(front), s.store.nextId, t.store.nextId,
                      Start(s.store.nextId, a.message));
      } else {
        StartsKept(s.store.runs, t.store.runs, Starts(front), s.store.nextId, t.store.nextId);
        assert Starts(front) + [] == Starts(front);
      }
    }
  }

  // The runs a trigger message has started, and how often it was delivered to that effect.
  function RunsOf(starts: seq<Start>, m: Envelope): set<nat> {
    if starts == [] then {}
    else
      var front, last := starts[..|starts| - 1], starts[|starts| - 1];
      RunsOf(front, m) + if last.message == m then {last.run} else {}
  }

  function StartsBy(actions: seq<Action>, m: Envelope): nat {
    if actions == [] then 0
    else
      var front, a := actions[..|actions| - 1], actions[|actions| - 1];
      StartsBy(front, m) + if IsStart(RunAll(START, front), a) && a.message == m then 1 else 0
  }

  lemma {:induction false} RunsOfAreStarted(starts: seq<Start>, m: Envelope, r: nat)
    requires r in RunsOf(starts, m)
    ensures exists k :: 0 <= k < |starts| && starts[k].run == r && starts[k].message == m
  {
    var n := |starts| - 1;
    if r in RunsOf(starts[..n], m) {
      RunsOfAreStarted(starts[..n], m, r);
      var k :| 0 <= k < n && starts[..n][k].run == r && starts[..n][k].message == m;
      assert starts[k].run == r && starts[k].message == m;
    } else {
      assert starts[n].run == r && starts[n].message == m;
    }
  }

  lemma {:induction false} RunsOfAppended(starts: seq<Start>, x: Start, m: Envelope)
    requires !HasStart(starts, x.run)
    ensures |RunsOf(starts + [x], m)| == |RunsOf(starts, m)| + if x.message == m then 1 else 0
  {
    assert (starts + [x])[..|starts|] == starts;
    if x.run in RunsOf(starts, m) {
      RunsOfAreStarted(starts, m, x.run);
    }
  }

  // Redelivery of a trigger message is not harmless: it has started exactly as many runs as it had such deliveries.
  lemma {:induction false} RunsPerTrigger(actions: seq<Action>, m: Envelope)
    requires Legal(START, actions)
    ensures |RunsOf(Starts(actions), m)| == StartsBy(actions, m)
  {
    if actions != [] {
      var front, a := actions[..|actions| - 1], actions[|actions| - 1];
      var s := RunAll(START, front);
      RunsPerTrigger(front, m);
      RunsAreStarts(front);
      if IsStart(s, a) {
        RunsOfAppended(Starts(front), Start(s.store.nextId, a.message), m);
      } else {
        assert Starts(front) + [] == Starts(front);
      }
    }
  }

  // ---- Lives ----

  // A committed delivery of a resume message of the run.
  predicate IsPass(s: System, a: Action, r: nat) {
    a.Deliver? && a.message.event.run == OfRun(r) && Handled(s.store, a.message.event, a.env).committed
  }

  function Passes(s: System, actions: seq<Action>, r: nat): nat {
    if actions == [] then 0
    else
      var front, a := actions[..|actions| - 1], actions[|actions| - 1];
      Passes(s, front, r) + if IsPass(RunAll(s, front), a, r) then 1 else 0
  }

  // The run's workflow keeps its steps, and values always print and parse alike.
  ghost predicate Steady(a: Action, workflow: string, steps: seq<Step>, r: nat, f: Condition.Formats) {
    match a
    case Edit(_, id, d) => id == workflow ==> d.steps == steps
    case Deliver(_, m, env, _) => m.event.run == OfRun(r) ==> env.formats == f
    case _ => true
  }

  ghost predicate AllSteady(s: Store, actions: seq<Action>, r: nat, f: Condition.Formats)
    requires Resumable(s, r)
  {
    forall k :: 0 <= k < |actions| ==> Steady(actions[k], s.runs[r].workflow, StepsOf(s, r), r, f)
  }

  // The row after k passes.
  ghost predicate Tracks(s: Store, t: Store, r: nat, f: Condition.Formats, k: nat)
    requires Resumable(s, r)
  {
    && r in t.runs && SameRun(t.runs[r], s.runs[r])
    && s.runs[r].workflow in t.workflows && t.workflows[s.runs[r].workflow].steps == StepsOf(s, r)
    && if k == 0 then t.runs[r].status == Running && t.runs[r].index == s.runs[r].index
       else Shows(t.runs[r], |StepsOf(s, r)|, Play(FlowFor(s, r, f), StartOf(s, r), k - 1))
  }

  lemma {:induction false} StepsStay(
    s: System, a: Action, workflow: string, steps: seq<Step>, r: nat, f: Condition.Formats
  )
    requires workflow in s.store.workflows && s.store.workflows[workflow].steps == steps
    requires Steady(a, workflow, steps, r, f)
    ensures workflow in Next(s, a).store.workflows && Next(s, a).store.workflows[workflow].steps == steps
  {
    match a
    case Deliver(_, m, env, _) => HandledRuns(s.store, m.event, env);
    case Tick(_, _, _, _, _) => TickFrame(s, a);
    case _ =>
  }

  // A pass takes the row one step along the play.
  lemma {:induction false} PassTracks(s: Store, t: System, a: Action, r: nat, f: Condition.Formats, k: nat)
    requires Resumable(s, r) && Tracks(s, t.store, r, f, k) && IsPass(t, a, r) && a.env.formats == f
    ensures Tracks(s, Next(t, a).store, r, f, k + 1)
  {
    HandledRuns(t.store, a.message.event, a.env);
    if t.store.runs[r].status == Running {
      assert EventOf(t.store, r) == EventOf(s, r) && StepsOf(t.store, r) == StepsOf(s, r);
      FlowOfEnv(t.store, r, a.env);
      SegmentPauseInside(FlowFor(s, r, f), StartOf(t.store, r), 0);
    }
  }

  lemma {:induction false} StepTracks(s: Store, t: System, a: Action, r: nat, f: Condition.Formats, k: nat)
    requires Resumable(s, r) && Orderly(t.store) && Tracks(s, t.store, r, f, k)
    requires Steady(a, s.runs[r].workflow, StepsOf(s, r), r, f)
    ensures Tracks(s, Next(t, a).store, r, f, if IsPass(t, a, r) then k + 1 else k)
  {
    if IsPass(t, a, r) {
      PassTracks(s, t, a, r, f, k);
    } else {
      OtherStepKeepsRow(t, a, r);
      StepsStay(t, a, s.runs[r].workflow, StepsOf(s, r), r, f);
    }
  }

  // Through any legal history in which its workflow keeps its steps, a run's row is, after k committed resumptions,
  // that of the play on the control flow, whatever other runs, ticks, clients and failures do in between.
  lemma {:induction false} HistoryFollowsPlay(s: System, actions: seq<Action>, r: nat, f: Condition.Formats)
    requires Coherent(s) && Resumable(s.store, r) && Legal(s, actions) && AllSteady(s.store, actions, r, f)
    ensures Coherent(RunAll(s, actions))
    ensures Tracks(s.store, RunAll(s, actions).store, r, f, Passes(s, actions, r))
  {
    if actions != [] {
      var n := |actions| - 1;
      assert forall k :: 0 <= k < n ==> actions[..n][k] == actions[k];
      HistoryFollowsPlay(s, actions[..n], r, f);
      var t := RunAll(s, actions[..n]);
      StepKeepsCoherence(t, actions[n]);
      StepTracks(s.store, t, actions[n], r, f, Passes(s, actions[..n], r));
    }
  }

  // Every such history with at least that many resumptions ends with the run in this status.
  ghost predicate SettlesAfter(s: System, r: nat, f: Condition.Formats, passes: nat, status: Status)
    requires Resumable(s.store, r)
  {
    forall actions | Legal(s, actions) && AllSteady(s.store, actions, r, f) && Passes(s, actions, r) >= passes ::
      r in RunAll(s, actions).store.runs && RunAll(s, actions).store.runs[r].status == status
  }

  lemma {:induction false} PlayStays(f: Flow, start: nat, a: nat, b: nat)
    requires a <= b && !Play(f, start, a).Waiting?
    ensures Play(f, start, b) == Play(f, start, a)
  {
    if a < b {
      PlayStays(f, start, a, b - 1);
    }
  }

  // A run that has settled by its play has the status of its play.
  lemma {:induction false} TracksSettled(s: Store, t: Store, r: nat, f: Condition.Formats, k: nat, n: nat)
    requires Resumable(s, r) && Tracks(s, t, r, f, k) && k >= n + 1
    requires !Play(FlowFor(s, r, f), StartOf(s, r), n).Waiting?
    ensures t.runs[r].status == StatusOf(Play(FlowFor(s, r, f), StartOf(s, r), n))
  {
    PlayStays(FlowFor(s, r, f), StartOf(s, r), n, k - 1);
  }

  lemma {:induction false} SettledStatus(s: System, r: nat, f: Condition.Formats, n: nat)
    requires Coherent(s) && Resumable(s.store, r)
    requires !Play(FlowFor(s.store, r, f), StartOf(s.store, r), n).Waiting?
    ensures SettlesAfter(s, r, f, n + 1, StatusOf(Play(FlowFor(s.store, r, f), StartOf(s.store, r), n)))
  {
    forall actions | Legal(s, actions) && AllSteady(s.store, actions, r, f) && Passes(s, actions, r) >= n + 1
      ensures r in RunAll(s, actions).store.runs
      ensures RunAll(s, actions).store.runs[r].status == StatusOf(Play(FlowFor(s.store, r, f), StartOf(s.store, r), n))
    {
      HistoryFollowsPlay(s, actions, r, f);
      TracksSettled(s.store, RunAll(s, actions).store, r, f, Passes(s, actions, r), n);
    }
  }

  // So through every such history the erased walk decides the run's fate: completed after enough resumptions if the
  // walk ends, failed after enough if it enters a cycle without a delay, and otherwise running after any number.
  lemma {:induction false} HistoryTransparency(s: System, r: nat, f: Condition.Formats)
    requires Coherent(s) && Resumable(s.store, r)
    ensures var flow, start := FlowFor(s.store, r, f), StartOf(s.store, r);
            && (ErasedEnds(flow, start) ==> exists n: nat :: SettlesAfter(s, r, f, n, Completed))
            && (EntersDelayFreeCycle(flow, start) ==> exists n: nat :: SettlesAfter(s, r, f, n, Failed))
            && (EntersDelayCycle(flow, start) ==> SettlesAfter(s, r, f, 0, Running))
  {
    var flow, start := FlowFor(s.store, r, f), StartOf(s.store, r);
    DelayTransparency(flow, start);
    if ErasedEnds(flow, start) {
      var n: nat :| Play(flow, start, n).Done?;
      SettledStatus(s, r, f, n);
    }
    if EntersDelayFreeCycle(flow, start) {
      var n: nat :| Play(flow, start, n).Cyclic?;
      SettledStatus(s, r, f, n);
    }
    if EntersDelayCycle(flow, start) {
      AlwaysRunning(s, r, f);
    }
  }

  lemma {:induction false} AlwaysRunning(s: System, r: nat, f: Condition.Formats)
    requires Coherent(s) && Resumable(s.store, r) && RunsForever(FlowFor(s.store, r, f), StartOf(s.store, r))
    ensures SettlesAfter(s, r, f, 0, Running)
  {
    forall actions | Legal(s, actions) && AllSteady(s.store, actions, r, f)
      ensures r in RunAll(s, actions).store.runs && RunAll(s, actions).store.runs[r].status == Running
    {
      HistoryFollowsPlay(s, actions, r, f);
      var k := Passes(s, actions, r);
      assert k > 0 ==> Play(FlowFor(s.store, r, f), StartOf(s.store, r), k - 1).Waiting?;
    }
  }

  // ---- Pauses ----

  // The run has not been resumed since it paused until then.
  ghost predicate PausedUntil(s: System, r: nat, time: int) {
    && r in s.store.runs && s.store.runs[r].resumeAt in {WakeAt(time), NoWake}
    && r in s.due && s.due[r] == time
  }

  // No committed delivery of the run's resume messages.
  ghost predicate NoPass(s: System, actions: seq<Action>, r: nat) {
    Passes(s, actions, r) == 0
  }

  lemma OtherStepKeepsPause(s: System, a: Action, r: nat, time: int)
    requires Orderly(s.store) && PausedUntil(s, r, time) && !IsPass(s, a, r)
    ensures PausedUntil(Next(s, a), r, time)
  {
    OtherStepKeepsRow(s, a, r);
    if a.Tick? {
      TickClears(Statement(BeginTx(s.store, a.faults), a.faults, true), a.tenant, a.batch, a.faults, r);
    } else if a.Deliver? {
      HandledRuns(s.store, a.message.event, a.env);
    }
  }

  // A tick leaves a run's resume time alone or clears it.
  lemma {:induction false} TickClears(tx: Tx, tenant: string, batch: seq<nat>, faults: seq<Fault>, r: nat)
    requires r in tx.store.runs
    ensures var runs := TickRuns(tx, tenant, batch, faults).tx.store.runs;
            r in runs && runs[r].resumeAt in {tx.store.runs[r].resumeAt, NoWake}
    decreases batch
  {
    if batch != [] {
      TickClears(TurnOf(tx, tenant, batch[0], faults).tx, tenant, batch[1..], faults, r);
    }
  }

  lemma {:induction false} PauseLasts(s: System, later: seq<Action>, r: nat, time: int)
    requires Coherent(s) && PausedUntil(s, r, time) && Legal(s, later) && NoPass(s, later, r)
    ensures Coherent(RunAll(s, later)) && PausedUntil(RunAll(s, later), r, time)
  {
    if later != [] {
      var n := |later| - 1;
      PauseLasts(s, later[..n], r, time);
      StepKeepsCoherence(RunAll(s, later[..n]), later[n]);
      OtherStepKeepsPause(RunAll(s, later[..n]), later[n], r, time);
    }
  }

  lemma {:induction false} RunAllJoins(s: System, first: seq<Action>, second: seq<Action>)
    ensures RunAll(s, first + second) == RunAll(RunAll(s, first), second)
  {
    if second == [] {
      assert first + second == first;
    } else {
      var n := |second| - 1;
      RunAllJoins(s, first, second[..n]);
      assert (first + second)[..|first + second| - 1] == first + second[..n];
    }
  }

  lemma {:induction false} LegalJoins(s: System, first: seq<Action>, second: seq<Action>)
    ensures Legal(s, first + second) <==> Legal(s, first) && Legal(RunAll(s, first), second)
  {
    if second == [] {
      assert first + second == first;
    } else {
      var n := |second| - 1;
      LegalJoins(s, first, second[..n]);
      RunAllJoins(s, first, second[..n]);
      assert (first + second)[..|first + second| - 1] == first + second[..n];
    }
  }

  // After sound steps, a run that has paused until some time is next resumed after that time, however many other steps
  // come between.
  lemma {:induction false} ResumedAfterPause(past: seq<Action>, later: seq<Action>, a: Action, r: nat, time: int)
    requires Legal(START, past) && Legal(RunAll(START, past), later) && AllSound(START, past + later)
    requires r in RunAll(START, past).store.runs && RunAll(START, past).store.runs[r].resumeAt == WakeAt(time)
    requires NoPass(RunAll(START, past), later, r)
    requires a.Deliver? && a.message.event.run == OfRun(r) && Enabled(RunAll(RunAll(START, past), later), a)
    ensures time < a.env.now
  {
    var s := RunAll(START, past);
    AlwaysCoherent(past);
    TimesAlwaysOk(past);
    assert TimeOk(s, r);
    PauseLasts(s, later, r, time);
    RunAllJoins(START, past, later);
    LegalJoins(START, past, later);
    NeverEarly(past + later, a);
  }
}
