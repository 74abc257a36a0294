// Where the code leaves a gap, how far it opens: passes that can never succeed, workflows edited under a paused run,
// and histories from the start in which a lost acknowledgement or commit breaks the wake-up protocol.
module Hazards {
  import opened Faults
  import opened Walk
  import opened Workflow
  import opened Engine
  import opened RunSemantics
  import opened Transparency
  import opened Wakeup
  import opened Tokens
  import Condition
  import Subjects

  // ---- A step the table will never accept ----

  // The steps before the first one whose notification is refused.
  function UpToRefused(ev: Event, steps: seq<Step>): seq<Step> {
    if steps == [] || !Insertable(ev, steps[0].channel) then [] else [steps[0]] + UpToRefused(ev, steps[1..])
  }

  // The part of the tables that a rollback does not restore.
  ghost predicate SamePublished(a: Store, b: Store) {
    a.jobs == b.jobs && a.nextId == b.nextId
  }

  lemma {:induction false} SentAllPublished(s: Store, t: Store, ev: Event, steps: seq<Step>, run: nat)
    requires SamePublished(s, t)
    ensures SamePublished(SentAll(s, ev, steps, run), SentAll(t, ev, steps, run))
    decreases steps
  {
    if steps != [] {
      SentAllPublished(Sent(s, ev, steps[0], run), Sent(t, ev, steps[0], run), ev, steps[1..], run);
    }
  }

  lemma {:induction false} UpToRefusedStep(
    tx: Tx, ev: Event, steps: seq<Step>, flow: Flow, run: nat, i: nat, visits: seq<nat>, faults: seq<Fault>
  )
    requires |flow| == |steps| && !tx.aborted && faults == [] && i < |flow| && flow[i].mark.Channel?
    ensures var r := Dispatched(tx, ev, steps[i], run, faults);
            var s := tx.store;
            var rest := UpToRefused(ev, Served(steps, s.matrix, ev, visits));
            SamePublished(SentAll(s, ev, UpToRefused(ev, Served(steps, s.matrix, ev, [i] + visits)), run),
                          if r.ok then SentAll(r.tx.store, ev, rest, run) else r.tx.store)
  {
    DispatchedExact(tx, ev, steps[i], run, faults);
    assert ([i] + visits)[1..] == visits;
    var rest := Served(steps, tx.store.matrix, ev, visits);
    if OptedIn(tx.store.matrix, ev, steps[i].channel) {
      assert ([steps[i]] + rest)[1..] == rest;
    }
  }

  // One step of a pass and then the rest publish what they serve together.
  lemma {:induction false} StridePublishes(
    tx: Tx, ev: Event, steps: seq<Step>, flow: Flow, run: nat, i: nat, visits: seq<nat>, env: Env
  )
    requires |flow| == |steps| && !tx.aborted && env.faults == [] && i < |flow| && !flow[i].mark.Delay?
    ensures var r := Strode(tx, ev, steps[i], flow[i], run, env).result;
            var s := tx.store;
            var rest := UpToRefused(ev, Served(steps, s.matrix, ev, visits));
            SamePublished(if r.ok then SentAll(r.tx.store, ev, rest, run) else r.tx.store,
                          SentAll(s, ev, UpToRefused(ev, Served(steps, s.matrix, ev, VisitOf(flow, i) + visits)), run))
  {
    if flow[i].mark.Channel? {
      UpToRefusedStep(tx, ev, steps, flow, run, i, visits, env.faults);
    } else {
      assert [] + visits == visits;
    }
  }

  // Without outside failures a pass publishes the jobs of the steps it serves, up to the first refused one.
  lemma {:induction false} PassPublishes(
    tx: Tx, ev: Event, steps: seq<Step>, flow: Flow, run: nat, i: nat, visited: nat, env: Env
  )
    requires |flow| == |steps| && !tx.aborted && env.faults == []
    ensures var served := Served(steps, tx.store.matrix, ev, Segment(flow, i, visited).visits);
            SamePublished(Executed(tx, ev, steps, flow, run, i, visited, env).tx.store,
                          SentAll(tx.store, ev, UpToRefused(ev, served), run))
    decreases MaxIterations(flow) + 1 - visited
  {
    if i < |flow| && visited <= MaxIterations(flow) && !flow[i].mark.Delay? {
      var st := Strode(tx, ev, steps[i], flow[i], run, env);
      FaultFreeStride(tx, ev, steps[i], flow[i], run, env);
      StridePublishes(tx, ev, steps, flow, run, i, Segment(flow, flow[i].next, visited + 1).visits, env);
      ExecutedStep(tx, ev, steps, flow, run, i, visited, env, st);
      if st.result.ok {
        PassPublishes(st.result.tx, ev, steps, flow, run, flow[i].next, visited + 1, env);
      }
    }
  }

  // The pass an event brings about: what it runs on, and from where.
  datatype Pass = NoPass | Pass(event: Event, steps: seq<Step>, run: nat, start: int)

  function PassOf(s: Store, ev: Event, pick: string): Pass {
    if ev.run.OfRun? then
      if Resumable(s, ev.run.id) && Readable(s, ev.run.id)
      then Pass(EventOf(s, ev.run.id), StepsOf(s, ev.run.id), ev.run.id, s.runs[ev.run.id].index) else NoPass
    else if Active(s, pick, ev) && s.workflows[pick].readable then Pass(ev, s.workflows[pick].steps, s.nextId, 0)
    else NoPass
  }

  // The steps it serves, up to the first refused one.
  function Futile(s: Store, p: Pass, env: Env): seq<Step>
    requires p.Pass?
  {
    UpToRefused(p.event, Served(p.steps, s.matrix, p.event, PassOutcome(p.event, p.steps, p.start, env).visits))
  }

  ghost predicate Refused(s: Store, p: Pass, env: Env)
    requires p.Pass?
  {
    !AllInsertable(p.event, Served(p.steps, s.matrix, p.event, PassOutcome(p.event, p.steps, p.start, env).visits))
  }

  // Such a pass cannot commit even if nothing else fails, and its earlier jobs are out.
  lemma {:induction false} RefusedPass(s: Store, ev: Event, env: Env)
    requires env.faults == [] && PassOf(s, ev, env.pick).Pass? && Refused(s, PassOf(s, ev, env.pick), env)
    ensures var h := Handled(s, ev, env);
            && !h.ok && !h.committed
            && |h.store.jobs| == |s.jobs| + |Futile(s, PassOf(s, ev, env.pick), env)|
  {
    var p := PassOf(s, ev, env.pick);
    var flow := FlowOf(p.steps, VerdictOf(env, p.event));
    var tx1 := Statement(BeginTx(s, []), [], true);
    var tx2 := if ev.run.OfRun? then tx1 else Created(Statement(tx1, [], true), ev, env.pick);
    FaultFreePassSucceeds(tx2, p.event, p.steps, flow, p.run, ClampStart(p.start), 0, env);
    PassPublishes(tx2, p.event, p.steps, flow, p.run, ClampStart(p.start), 0, env);
    SentAllFrame(tx2.store, p.event, Futile(s, p, env), p.run);
  }

  function EnvAt(f: Condition.Formats, pick: string, now: int): Env {
    Env(f, now, pick, [], NoFault)
  }

  // The clock does not matter to what a pass serves.
  lemma {:induction false} SameFlow(f: Condition.Formats, pick: string, ev: Event, steps: seq<Step>, now: int)
    ensures FlowOf(steps, VerdictOf(EnvAt(f, pick, now), ev)) == FlowOf(steps, VerdictOf(EnvAt(f, pick, 0), ev))
  {
    assert forall k | 0 <= k < |steps| ::
      NodeOf(steps, VerdictOf(EnvAt(f, pick, now), ev), k) == NodeOf(steps, VerdictOf(EnvAt(f, pick, 0), ev), k);
  }

  // The same message delivered at each of the given times, nothing failing.
  function Deliveries(m: Envelope, f: Condition.Formats, pick: string, times: seq<int>): (actions: seq<Action>)
    ensures |actions| == |times|
  {
    if times == [] then []
    else
      var n := |times| - 1;
      Deliveries(m, f, pick, times[..n]) + [Deliver(times[n], m, EnvAt(f, pick, times[n]), false)]
  }

  ghost predicate Ascending(from: int, times: seq<int>) {
    && (forall k :: 0 <= k < |times| ==> from < times[k])
    && forall j, k :: 0 <= j < k < |times| ==> times[j] < times[k]
  }

  // As far as passes are concerned the tables have not changed.
  ghost predicate Unmoved(s: Store, t: Store) {
    t == s.(nextId := t.nextId, jobs := t.jobs) && s.nextId <= t.nextId && |s.jobs| <= |t.jobs|
  }

  lemma {:induction false} RefusedAgain(s: Store, t: Store, ev: Event, f: Condition.Formats, pick: string, now: int)
    requires Unmoved(s, t) && PassOf(s, ev, pick).Pass? && Refused(s, PassOf(s, ev, pick), EnvAt(f, pick, 0))
    ensures PassOf(t, ev, pick).Pass? && Refused(t, PassOf(t, ev, pick), EnvAt(f, pick, now))
    ensures Futile(t, PassOf(t, ev, pick), EnvAt(f, pick, now)) == Futile(s, PassOf(s, ev, pick), EnvAt(f, pick, 0))
  {
    var p := PassOf(s, ev, pick);
    SameFlow(f, pick, p.event, p.steps, now);
  }

  // The event's pass meets a step that the notification table will never accept.
  ghost predicate Doomed(s: Store, ev: Event, f: Condition.Formats, pick: string) {
    PassOf(s, ev, pick).Pass? && Refused(s, PassOf(s, ev, pick), EnvAt(f, pick, 0))
  }

  // Jobs the pass publishes before it meets it.
  function Wasted(s: Store, ev: Event, f: Condition.Formats, pick: string): nat
    requires PassOf(s, ev, pick).Pass?
  {
    |Futile(s, PassOf(s, ev, pick), EnvAt(f, pick, 0))|
  }

  // From s to t nothing but orphans, that many for each of n deliveries, and the queue as it was.
  ghost predicate Flooded(s: System, t: System, each: nat, n: nat) {
    && t.events == s.events && Unmoved(s.store, t.store)
    && |t.store.jobs| == |s.store.jobs| + n * each
    && forall k :: |s.store.jobs| <= k < |t.store.jobs| ==> Orphan(t.store, k)
  }

  // The engine's consumer sets no delivery limit. A doomed event stays queued for ever, and every delivery publishes
  // the jobs of the steps before the refused one once more, all of them orphans.
  lemma {:induction false} RefusedStepFloods(
    s: System, m: Envelope, f: Condition.Formats, pick: string, times: seq<int>
  )
    requires Coherent(s) && m in s.events && Ascending(s.clock, times) && Doomed(s.store, m.event, f, pick)
    ensures var t := RunAll(s, Deliveries(m, f, pick, times));
            && Legal(s, Deliveries(m, f, pick, times)) && Coherent(t)
            && Flooded(s, t, Wasted(s.store, m.event, f, pick), |times|)
            && t.clock == if times == [] then s.clock else times[|times| - 1]
  {
    if times != [] {
      var n := |times| - 1;
      var front := Deliveries(m, f, pick, times[..n]);
      RefusedStepFloods(s, m, f, pick, times[..n]);
      var t, a := RunAll(s, front), Deliver(times[n], m, EnvAt(f, pick, times[n]), false);
      RefusedDelivery(s, t, a, f, pick, n);
      OneMore(s, front, a);
    }
  }

  // One more such delivery fails and leaves as many more jobs.
  lemma {:induction false} RefusedOnce(s: Store, t: Store, ev: Event, f: Condition.Formats, pick: string, now: int)
    requires Orderly(t) && Backed(t) && Unmoved(s, t) && Doomed(s, ev, f, pick)
    ensures var h := Handled(t, ev, EnvAt(f, pick, now));
            && !h.ok && !h.committed && Unmoved(s, h.store)
            && |h.store.jobs| == |t.jobs| + Wasted(s, ev, f, pick)
  {
    var env := EnvAt(f, pick, now);
    RefusedAgain(s, t, ev, f, pick, now);
    RefusedPass(t, ev, env);
    HandledExact(t, ev, env);
    HandledBalanced(t, ev, env);
  }

  lemma {:induction false} NewJobsOrphaned(s: System, a: Action, from: nat)
    requires Coherent(s) && Enabled(s, a) && a.Deliver? && from <= |s.store.jobs|
    requires !Handled(s.store, a.message.event, a.env).committed
    requires forall k :: from <= k < |s.store.jobs| ==> Orphan(s.store, k)
    ensures forall k :: from <= k < |Next(s, a).store.jobs| ==> Orphan(Next(s, a).store, k)
  {
    forall k | from <= k < |Next(s, a).store.jobs| ensures Orphan(Next(s, a).store, k) {
      if k < |s.store.jobs| {
        OrphansStay(s, a, k);
      } else {
        OrphanIffRolledBack(s, a, k);
      }
    }
  }

  lemma {:induction false} RefusedDelivery(s: System, t: System, a: Action, f: Condition.Formats, pick: string, n: nat)
    requires Coherent(t) && a.Deliver? && t.clock < a.at && a.env == EnvAt(f, pick, a.at) && a.message in t.events
    requires Doomed(s.store, a.message.event, f, pick)
    requires Flooded(s, t, Wasted(s.store, a.message.event, f, pick), n)
    ensures Enabled(t, a) && Coherent(Next(t, a)) && Next(t, a).clock == a.at
    ensures Flooded(s, Next(t, a), Wasted(s.store, a.message.event, f, pick), n + 1)
  {
    RefusedOnce(s.store, t.store, a.message.event, f, pick, a.at);
    EnabledAgain(s.store, t, a, f, pick);
    StepKeepsCoherence(t, a);
    NewJobsOrphaned(t, a, |s.store.jobs|);
  }

  lemma {:induction false} EnabledAgain(s: Store, t: System, a: Action, f: Condition.Formats, pick: string)
    requires Unmoved(s, t.store) && a.Deliver? && Doomed(s, a.message.event, f, pick)
    requires t.clock < a.at && a.env == EnvAt(f, pick, a.at) && a.message in t.events
    ensures Enabled(t, a)
  {
  }

  // ---- A workflow edited while a run is paused ----

  // Whatever the workflow was when the run paused, its fate is that of the walk over the steps as edited, from the
  // index stored under the old ones.
  lemma {:induction false} EditedRunFate(s: System, a: Action, run: nat, f: Condition.Formats)
    requires a.Edit? && run in s.store.runs
    requires s.store.runs[run].status == Running && s.store.runs[run].workflow == a.id
    ensures var t := Next(s, a).store;
            var flow := FlowOf(a.definition.steps, VerdictOf(CleanEnv(f, 0), EventOf(s.store, run)));
            var start := ClampStart(s.store.runs[run].index);
            && Resumable(t, run)
            && (Eventually(t, run, f, Completed) <==> !Stuck(t, run, f) && ErasedEnds(flow, start))
            && (Eventually(t, run, f, Failed) <==> !Stuck(t, run, f) && EntersDelayFreeCycle(flow, start))
            && (StaysRunning(t, run, f) <==> Stuck(t, run, f) || EntersDelayCycle(flow, start))
  {
    RunTransparency(Next(s, a).store, run, f);
  }

  // ---- Histories from the start ----

  const TENANT := "acme"
  const FLOW := "welcome"
  const SIGNUP := "signup"
  const USER := "ada"

  function Defined(steps: seq<Step>): Definition {
    Definition(TENANT, SIGNUP, steps, true, true)
  }

  function Signup(): Envelope {
    Envelope(Subjects.EventSubject(TENANT), Event(TENANT, USER, SIGNUP, map[], NoRun))
  }

  function PausedRun(resume: Wake): Run {
    Run(TENANT, FLOW, USER, SIGNUP, map[], Running, 1, resume, "")
  }

  function PausedSystem(steps: seq<Step>): System {
    var store := Store(map[FLOW := Defined(steps)], map[], map[0 := PausedRun(WakeAt(3))], map[], 1, []);
    System(store, multiset{}, 3, map[0 := 3], {})
  }

  predicate StartsWithDelay(steps: seq<Step>) {
    |steps| > 1 && steps[0].kind.DelayStep? && steps[0].delaySeconds == 0 && steps[0].nextStep == ""
  }

  lemma {:induction false} FirstPass(steps: seq<Step>, f: Condition.Formats)
    requires StartsWithDelay(steps)
    ensures var s := Store(map[FLOW := Defined(steps)], map[], map[], map[], 0, []);
            var h := Handled(s, Signup().event, EnvAt(f, FLOW, 3));
            h.ok && h.committed && h.store == PausedSystem(steps).store
  {
    var env := EnvAt(f, FLOW, 3);
    var flow := FlowOf(steps, VerdictOf(env, Signup().event));
    assert flow[0] == NodeOf(steps, VerdictOf(env, Signup().event), 0);
    assert flow[0] == Node(1, Delay);
  }

  function TriggeredSystem(steps: seq<Step>): System {
    System(Store(map[FLOW := Defined(steps)], map[], map[], map[], 0, []), multiset{Signup()}, 2, map[], {})
  }

  lemma {:induction false} TriggeredReachable(steps: seq<Step>) returns (actions: seq<Action>)
    ensures Legal(START, actions) && AllSound(START, actions) && RunAll(START, actions) == TriggeredSystem(steps)
  {
    actions := More(START, [], Edit(1, FLOW, Defined(steps)));
    actions := More(START, actions, Trigger(2, TENANT, USER, SIGNUP, map[], NoFault));
  }

  // A workflow that begins with a delay of no length is defined, triggered, and paused after its first step.
  lemma {:induction false} PausedReachable(steps: seq<Step>, f: Condition.Formats) returns (actions: seq<Action>)
    requires StartsWithDelay(steps)
    ensures Legal(START, actions) && AllSound(START, actions) && RunAll(START, actions) == PausedSystem(steps)
  {
    var past := TriggeredReachable(steps);
    FirstPass(steps, f);
    var deliver := Deliver(3, Signup(), EnvAt(f, FLOW, 3), false);
    assert Active(TriggeredSystem(steps).store, FLOW, Signup().event);
    assert Next(TriggeredSystem(steps), deliver) == PausedSystem(steps);
    actions := More(START, past, deliver);
  }

  // Extends a history by a sound step.
  lemma {:induction false} More(s: System, actions: seq<Action>, a: Action) returns (more: seq<Action>)
    requires Legal(s, actions) && AllSound(s, actions)
    requires Enabled(RunAll(s, actions), a) && Sound(RunAll(s, actions), a)
    ensures Legal(s, more) && AllSound(s, more) && RunAll(s, more) == Next(RunAll(s, actions), a)
  {
    more := actions + [a];
    assert more[..|more| - 1] == actions;
  }

  // The tick that picks the paused run, with its commit succeeding or not.
  function Pick(at: int, commit: Fault): Action {
    Tick(at, TENANT, [0], [], commit)
  }

  lemma {:induction false} PickEffect(steps: seq<Step>, s: System, at: int, commit: Fault)
    requires s.store == PausedSystem(steps).store && 3 <= s.clock < at
    ensures Enabled(s, Pick(at, commit))
    ensures var t := TickBody(s.store, TENANT, [0], []);
            && !t.tx.aborted && t.sent == [WakeUp(TENANT, 0)] && t.rejected == {}
            && t.tx.store == s.store.(runs := map[0 := PausedRun(NoWake)])
  {
    var tx := Statement(BeginTx(s.store, []), [], true);
    var turn := TurnOf(tx, TENANT, 0, []);
    assert [0][1..] == [];
    assert TickRuns(turn.tx, TENANT, [], []) == Ticked(turn.tx, [], {});
  }

  // A history in which the commit of a tick fails leaves two wake-ups of one run in flight.
  lemma {:induction false} TwoWakeUpsReachable(f: Condition.Formats) returns (actions: seq<Action>)
    ensures Legal(START, actions) && 0 in RunAll(START, actions).store.runs && InFlight(RunAll(START, actions), 0) == 2
  {
    var steps := [Pausing(0), Pausing(3600)];
    var past := PausedReachable(steps, f);
    var a, b := Pick(4, Rejected), Pick(5, NoFault);
    PickEffect(steps, PausedSystem(steps), 4, Rejected);
    OneMore(START, past, a);
    var s := Next(PausedSystem(steps), a);
    PickEffect(steps, s, 5, NoFault);
    OneMore(START, past + [a], b);
    actions := past + [a] + [b];
  }

  function Pausing(seconds: int): Step {
    Step("", DelayStep, "", "", seconds, "", "", "", "")
  }

  lemma {:induction false} HourLeft(v: Verdict)
    ensures var flow := FlowOf([Pausing(0), Pausing(3600)], v);
            Segment(flow, 1, 0) == Paused([], 1, 2) && Segment(flow, 2, 0) == Finished([])
  {
    var steps := [Pausing(0), Pausing(3600)];
    assert FlowOf(steps, v)[1] == NodeOf(steps, v, 1);
  }

  // The paused run with its wake-up in flight.
  function WokenSystem(steps: seq<Step>): System {
    var s := PausedSystem(steps);
    s.(store := s.store.(runs := map[0 := PausedRun(NoWake)]), events := multiset{WakeUp(TENANT, 0)}, clock := 4)
  }

  lemma {:induction false} WokenReachable(steps: seq<Step>, f: Condition.Formats) returns (actions: seq<Action>)
    requires StartsWithDelay(steps)
    ensures Legal(START, actions) && AllSound(START, actions) && RunAll(START, actions) == WokenSystem(steps)
  {
    var past := PausedReachable(steps, f);
    PickEffect(steps, PausedSystem(steps), 4, NoFault);
    assert Next(PausedSystem(steps), Pick(4, NoFault)) == WokenSystem(steps);
    actions := More(START, past, Pick(4, NoFault));
  }

  lemma {:induction false} EarlyEnd(f: Condition.Formats)
    ensures var s := WokenSystem([Pausing(0), Pausing(3600)]);
            var m := WakeUp(TENANT, 0);
            var first, again := Deliver(5, m, CleanEnv(f, 5), true), Deliver(6, m, CleanEnv(f, 6), false);
            var s1 := Next(s, first); var s2 := Next(s1, again);
            && Enabled(s, first) && Enabled(s1, again)
            && 0 in s2.store.runs && s2.store.runs[0].status == Completed
            && 0 in s2.due && s2.due[0] == 5 + 3600 * SECOND && s2.clock == 6
  {
    var s := WokenSystem([Pausing(0), Pausing(3600)]);
    HourLeft(VerdictOf(CleanEnv(f, 0), EventOf(s.store, 0)));
    RedeliveryCutsDelay(s, 0, f, 5, 6);
  }

  // A history in which one acknowledgement is lost brings a run to its end although the last resume time written for
  // it is most of an hour ahead.
  lemma {:induction false} EarlyEndReachable(f: Condition.Formats) returns (actions: seq<Action>)
    ensures Legal(START, actions)
    ensures var s := RunAll(START, actions);
            0 in s.store.runs && s.store.runs[0].status == Completed && 0 in s.due && s.due[0] > s.clock + 3599 * SECOND
  {
    var past := WokenReachable([Pausing(0), Pausing(3600)], f);
    var m := WakeUp(TENANT, 0);
    var first, again := Deliver(5, m, CleanEnv(f, 5), true), Deliver(6, m, CleanEnv(f, 6), false);
    EarlyEnd(f);
    OneMore(START, past, first);
    OneMore(START, past + [first], again);
    actions := past + [first] + [again];
  }

  lemma {:induction false} WrittenFate(f: Condition.Formats)
    ensures Eventually(PausedSystem(Written()).store, 0, f, Completed)
  {
    var s := PausedSystem(Written());
    var v := VerdictOf(CleanEnv(f, 0), EventOf(s.store, 0));
    var flow := FlowOf(Written(), v);
    assert flow[1] == NodeOf(Written(), v, 1);
    assert At(flow, 1, 1) >= |flow|;
    RunTransparency(s.store, 0, f);
  }

  lemma {:induction false} EditedCycles(v: Verdict)
    ensures EntersDelayFreeCycle(FlowOf(Edited(), v), 1)
  {
    var flow := FlowOf(Edited(), v);
    AsEdited(v);
    GuardExact(flow, 1);
    assert At(flow, 1, 0) == 1;
    NeverStopsHasDelayFreeCycle(flow, 1, 0);
  }

  lemma {:induction false} EditedFate(f: Condition.Formats, edit: Action)
    requires edit.Edit? && edit.id == FLOW && edit.definition == Defined(Edited())
    ensures Eventually(Next(PausedSystem(Written()), edit).store, 0, f, Failed)
  {
    var s := PausedSystem(Written());
    EditedCycles(VerdictOf(CleanEnv(f, 0), EventOf(s.store, 0)));
    NoChannelNotStuck(Next(s, edit).store, 0, f);
    EditedRunFate(s, edit, 0, f);
  }

  // A workflow without channel steps has nothing the table could refuse.
  lemma {:induction false} NoChannelNotStuck(s: Store, run: nat, f: Condition.Formats)
    requires Resumable(s, run) && Readable(s, run)
    requires forall k :: 0 <= k < |StepsOf(s, run)| ==> !StepsOf(s, run)[k].kind.ChannelStep?
    ensures !Stuck(s, run, f)
  {
  }

  // A history in which a workflow is edited under a paused run: left alone the run would complete, as would a new run
  // of the workflow as edited, but this one is failed by the guard.
  lemma {:induction false} EditFailsReachable(f: Condition.Formats) returns (actions: seq<Action>, edit: Action)
    ensures Legal(START, actions) && AllSound(START, actions)
    ensures RunAll(START, actions) == PausedSystem(Written()) && edit.Edit? && Enabled(RunAll(START, actions), edit)
    ensures Eventually(PausedSystem(Written()).store, 0, f, Completed)
    ensures Eventually(Next(PausedSystem(Written()), edit).store, 0, f, Failed)
    ensures forall v: Verdict :: Completes(FlowOf(edit.definition.steps, v), 0)
  {
    actions := PausedReachable(Written(), f);
    edit := Edit(4, FLOW, Defined(Edited()));
    WrittenFate(f);
    EditedFate(f, edit);
    forall v: Verdict ensures Completes(FlowOf(Edited(), v), 0) {
      AsEdited(v);
    }
  }
}
