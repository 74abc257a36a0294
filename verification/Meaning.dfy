// What a pass of the engine does, in terms of the steps as stored, the payload and the tables alone.
module Meaning {
  import opened Faults
  import opened Walk
  import opened Workflow
  import opened Engine
  import opened RunSemantics
  import Condition
  import Preferences

  // ---- The path of a pass ----

  // The step sends control there on this payload.
  ghost predicate Goes(f: Condition.Formats, payload: Condition.Payload, steps: seq<Step>, i: nat, next: nat) {
    && i < |steps|
    && LeadsTo(steps, Condition.EvalCondition(f, steps[i].condition, payload) == Condition.Ok(true), i, next)
  }

  // Each position but the last is a step, no delay, that sends control to the following position.
  ghost predicate IsPath(f: Condition.Formats, payload: Condition.Payload, steps: seq<Step>, path: seq<nat>) {
    && path != []
    && forall k, m :: 0 <= k < m == k + 1 < |path| ==>
         Goes(f, payload, steps, path[k], path[m]) && !steps[path[k]].kind.DelayStep?
  }

  // The channel steps on the way, in order.
  function ChannelsOn(steps: seq<Step>, path: seq<nat>): seq<nat> {
    if |path| <= 1 then []
    else
      (if path[0] < |steps| && steps[path[0]].kind.ChannelStep? then [path[0]] else []) + ChannelsOn(steps, path[1..])
  }

  // Where the path stops, and what a pass that takes it comes to.
  ghost predicate ComesTo(
    f: Condition.Formats, payload: Condition.Payload, steps: seq<Step>, path: seq<nat>, o: Outcome
  )
    requires path != []
  {
    var last := path[|path| - 1];
    && o.visits == ChannelsOn(steps, path)
    && match o
       case Finished(_) => last >= |steps|
       case Paused(_, at, next) =>
         last == at && at < |steps| && steps[at].kind.DelayStep? && Goes(f, payload, steps, at, next)
       case GuardTripped(_) => last < |steps|
  }

  lemma HoldsMeans(f: Condition.Formats, condition: string, payload: Condition.Payload)
    ensures Condition.Holds(f, condition, payload) <==>
            Condition.EvalCondition(f, condition, payload) == Condition.Ok(true)
  {
  }

  lemma StepGoes(env: Env, ev: Event, steps: seq<Step>, i: nat)
    requires i < |steps|
    ensures var node := FlowOf(steps, VerdictOf(env, ev))[i];
            && Goes(env.formats, ev.payload, steps, i, node.next)
            && (node.mark.Channel? <==> steps[i].kind.ChannelStep?)
            && (node.mark.Delay? <==> steps[i].kind.DelayStep?)
  {
    FlowLeads(steps, VerdictOf(env, ev), i);
    HoldsMeans(env.formats, steps[i].condition, ev.payload);
  }

  lemma PathPrepend(
    f: Condition.Formats, payload: Condition.Payload, steps: seq<Step>, i: nat, rest: seq<nat>, o: Outcome
  )
    requires i < |steps| && !steps[i].kind.DelayStep? && rest != []
    requires Goes(f, payload, steps, i, rest[0])
    requires IsPath(f, payload, steps, rest) && ComesTo(f, payload, steps, rest, o)
    ensures IsPath(f, payload, steps, [i] + rest)
    ensures ComesTo(f, payload, steps, [i] + rest, Prepend(if steps[i].kind.ChannelStep? then [i] else [], o))
  {
    var path := [i] + rest;
    assert path[1..] == rest;
    forall k, m | 0 <= k < m == k + 1 < |path|
      ensures Goes(f, payload, steps, path[k], path[m]) && !steps[path[k]].kind.DelayStep?
    {
      if k > 0 {
        assert path[k] == rest[k - 1] && path[m] == rest[k];
      }
    }
  }

  // The path the pass takes from position i in turn number `visited`: it fails on the guard when it has used up its
  // turns, and otherwise ends before that.
  ghost predicate Takes(
    f: Condition.Formats, payload: Condition.Payload, steps: seq<Step>, path: seq<nat>, o: Outcome, i: nat, visited: nat
  ) {
    && path != [] && path[0] == i && IsPath(f, payload, steps, path) && ComesTo(f, payload, steps, path, o)
    && (o.GuardTripped? ==> visited + |path| - 1 == 2 * |steps| + 11)
    && (o.Paused? ==> visited + |path| - 1 <= 2 * |steps| + 10)
  }

  lemma TakesOneMore(
    f: Condition.Formats, payload: Condition.Payload, steps: seq<Step>, i: nat, rest: seq<nat>, o: Outcome, next: nat,
    visited: nat
  )
    requires i < |steps| && !steps[i].kind.DelayStep? && Goes(f, payload, steps, i, next)
    requires Takes(f, payload, steps, rest, o, next, visited + 1)
    ensures Takes(f, payload, steps, [i] + rest, Prepend(if steps[i].kind.ChannelStep? then [i] else [], o), i, visited)
  {
    PathPrepend(f, payload, steps, i, rest, o);
  }

  lemma TakesNone(env: Env, ev: Event, steps: seq<Step>, flow: Flow, i: nat, visited: nat)
    requires flow == FlowOf(steps, VerdictOf(env, ev)) && visited <= MaxIterations(flow) + 1
    requires i >= |flow| || visited > MaxIterations(flow) || IsDelay(flow, i)
    ensures Takes(env.formats, ev.payload, steps, [i], Segment(flow, i, visited), i, visited)
  {
    if i < |steps| {
      StepGoes(env, ev, steps, i);
    }
  }

  lemma SegmentGoesOn(env: Env, ev: Event, steps: seq<Step>, flow: Flow, i: nat, visited: nat)
    requires flow == FlowOf(steps, VerdictOf(env, ev)) && i < |flow|
    requires visited <= MaxIterations(flow) && !IsDelay(flow, i)
    ensures !steps[i].kind.DelayStep? && Goes(env.formats, ev.payload, steps, i, flow[i].next)
    ensures Segment(flow, i, visited) ==
            Prepend(if steps[i].kind.ChannelStep? then [i] else [], Segment(flow, flow[i].next, visited + 1))
  {
    StepGoes(env, ev, steps, i);
  }

  ghost predicate TakesSome(
    f: Condition.Formats, payload: Condition.Payload, steps: seq<Step>, o: Outcome, i: nat, visited: nat
  ) {
    exists path :: Takes(f, payload, steps, path, o, i, visited)
  }

  lemma {:induction false} PassTakesPath(env: Env, ev: Event, steps: seq<Step>, flow: Flow, i: nat, visited: nat)
    requires flow == FlowOf(steps, VerdictOf(env, ev)) && visited <= MaxIterations(flow) + 1
    ensures TakesSome(env.formats, ev.payload, steps, Segment(flow, i, visited), i, visited)
    decreases MaxIterations(flow) + 1 - visited
  {
    if i >= |flow| || visited > MaxIterations(flow) || IsDelay(flow, i) {
      TakesNone(env, ev, steps, flow, i, visited);
    } else {
      var next := flow[i].next;
      PassTakesPath(env, ev, steps, flow, next, visited + 1);
      var rest :| Takes(env.formats, ev.payload, steps, rest, Segment(flow, next, visited + 1), next, visited + 1);
      SegmentGoesOn(env, ev, steps, flow, i, visited);
      TakesOneMore(env.formats, ev.payload, steps, i, rest, Segment(flow, next, visited + 1), next, visited);
    }
  }

  // ---- What the pass leaves ----

  // The run's row at the end of the path.
  ghost predicate RowAtEnd(
    before: Run, after: Run, env: Env, payload: Condition.Payload, steps: seq<Step>, path: seq<nat>
  )
    requires path != []
  {
    var last := path[|path| - 1];
    if last >= |steps| then after == before.(status := Completed, index := |steps|)
    else if steps[last].kind.DelayStep? && |path| <= 2 * |steps| + 11 then
      exists next: nat ::
        && Goes(env.formats, payload, steps, last, next)
        && after == before.(index := next, resumeAt := WakeAt(env.now + steps[last].delaySeconds * 1_000_000_000))
    else after == before.(status := Failed, error := "workflow exceeded max steps (cycle?)")
  }

  // The category of an event: what its payload says, if that is a nonempty text, and otherwise all.
  function CategoryIn(payload: Condition.Payload): string {
    if "category" in payload && payload["category"].Str? && payload["category"].s != ""
    then payload["category"].s else "all"
  }

  // One row and one job, in the event's own fields.
  function Queued(s: Store, ev: Event, step: Step, run: nat): Store {
    var row := Notification(ev.tenant, run, ev.subscriber, step.channel, step.templateId);
    var subject := "qeet-notify" + ['.'] + ev.tenant + ['.'] + ("channel" + ['.'] + step.channel);
    var job := Job(subject, ev.tenant, s.nextId, ev.subscriber, step.channel, step.templateId, ev.payload);
    s.(notifications := s.notifications[s.nextId := row], jobs := s.jobs + [job], nextId := s.nextId + 1)
  }

  // The channel steps on the way, one after the other, each unless the subscriber has opted out of its channel in the
  // event's category.
  function QueuedOn(s: Store, ev: Event, steps: seq<Step>, visits: seq<nat>, run: nat): Store
    decreases visits
  {
    if visits == [] then s
    else if visits[0] < |steps|
            && Preferences.OptedIn(
                 s.matrix, Preferences.Key(ev.tenant, ev.subscriber, steps[visits[0]].channel, CategoryIn(ev.payload)))
    then QueuedOn(Queued(s, ev, steps[visits[0]], run), ev, steps, visits[1..], run)
    else QueuedOn(s, ev, steps, visits[1..], run)
  }

  lemma SentIsQueued(s: Store, ev: Event, step: Step, run: nat)
    ensures Sent(s, ev, step, run) == Queued(s, ev, step, run)
    ensures OptedIn(s.matrix, ev, step.channel) <==>
            Preferences.OptedIn(
              s.matrix, Preferences.Key(ev.tenant, ev.subscriber, step.channel, CategoryIn(ev.payload)))
  {
  }

  lemma {:induction false} ServedIsQueued(s: Store, ev: Event, steps: seq<Step>, visits: seq<nat>, run: nat)
    ensures SentAll(s, ev, Served(steps, s.matrix, ev, visits), run) == QueuedOn(s, ev, steps, visits, run)
    decreases visits
  {
    if visits != [] {
      if visits[0] < |steps| {
        SentIsQueued(s, ev, steps[visits[0]], run);
        ServedIsQueued(Sent(s, ev, steps[visits[0]], run), ev, steps, visits[1..], run);
        if OptedIn(s.matrix, ev, steps[visits[0]].channel) {
          var rest := Served(steps, s.matrix, ev, visits[1..]);
          assert ([steps[visits[0]]] + rest)[1..] == rest;
        }
      }
      ServedIsQueued(s, ev, steps, visits[1..], run);
    }
  }

  // The row a walk's outcome stands for is the one at the end of the path.
  lemma RowIsAtEnd(row: Run, env: Env, payload: Condition.Payload, steps: seq<Step>, path: seq<nat>, o: Outcome, i: nat)
    requires Takes(env.formats, payload, steps, path, o, i, 0)
    ensures RowAtEnd(row, RowAfter(row, steps, o, env.now), env, payload, steps, path)
  {
  }

  // A pass has taken a path through the steps from where it started, each condition decided by evaluating it on the
  // payload: it has queued the channel steps on the way, and left the run completed past the end, paused for the length
  // of the delay it stopped at, or failed after the turns it is allowed.
  ghost predicate TookPath(
    before: Store, after: Store, ev: Event, steps: seq<Step>, run: nat, start: int, env: Env, path: seq<nat>
  )
    requires run in before.runs
  {
    && path != [] && path[0] == (if start < 0 then 0 else start) && IsPath(env.formats, ev.payload, steps, path)
    && run in after.runs && after.runs == before.runs[run := after.runs[run]]
    && after == QueuedOn(before, ev, steps, ChannelsOn(steps, path), run).(runs := after.runs)
    && RowAtEnd(before.runs[run], after.runs[run], env, ev.payload, steps, path)
  }

  ghost predicate TookSomePath(before: Store, after: Store, ev: Event, steps: seq<Step>, run: nat, start: int, env: Env)
    requires run in before.runs
  {
    exists path :: TookPath(before, after, ev, steps, run, start, env, path)
  }

  // Every pass that succeeds has.
  lemma {:induction false} ExecutedFromMeans(tx: Tx, ev: Event, steps: seq<Step>, run: nat, start: int, env: Env)
    requires run in tx.store.runs && ExecutedFrom(tx, ev, steps, run, start, env).ok
    ensures TookSomePath(tx.store, ExecutedFrom(tx, ev, steps, run, start, env).tx.store, ev, steps, run, start, env)
  {
    var flow, i := FlowOf(steps, VerdictOf(env, ev)), ClampStart(start);
    var o := Segment(flow, i, 0);
    PassTakesPath(env, ev, steps, flow, i, 0);
    var path :| Takes(env.formats, ev.payload, steps, path, o, i, 0);
    ExecutedExact(tx, ev, steps, flow, run, i, 0, env);
    ServedIsQueued(tx.store, ev, steps, o.visits, run);
    RowIsAtEnd(tx.store.runs[run], env, ev.payload, steps, path, o, i);
    PassTookPath(tx.store, ev, steps, run, start, env, path, o);
  }

  lemma PassTookPath(
    s: Store, ev: Event, steps: seq<Step>, run: nat, start: int, env: Env, path: seq<nat>, o: Outcome
  )
    requires run in s.runs && Takes(env.formats, ev.payload, steps, path, o, ClampStart(start), 0)
    requires SentAll(s, ev, Served(steps, s.matrix, ev, o.visits), run) == QueuedOn(s, ev, steps, o.visits, run)
    requires RowAtEnd(s.runs[run], RowAfter(s.runs[run], steps, o, env.now), env, ev.payload, steps, path)
    ensures TookPath(s, PassResult(s, ev, steps, run, o, env.now), ev, steps, run, start, env, path)
  {
  }

  // With nothing failing, a channel step for a subscriber who wants it succeeds for the six channels the table knows
  // and a named subscriber, and for no others.
  lemma DispatchSucceedsIff(tx: Tx, ev: Event, step: Step, run: nat)
    requires !tx.aborted && OptedIn(tx.store.matrix, ev, step.channel)
    ensures Dispatched(tx, ev, step, run, []).ok <==>
            step.channel in {"email", "sms", "whatsapp", "push", "inapp", "webhook"} && ev.subscriber != ""
    ensures Dispatched(tx, ev, step, run, []).tx.store ==
            if Dispatched(tx, ev, step, run, []).ok then Queued(tx.store, ev, step, run) else tx.store
  {
  }

  // ---- What an event does ----

  // A workflow of the tenant for this event, switched on.
  predicate Answers(d: Definition, ev: Event) {
    d.tenant == ev.tenant && d.trigger == ev.name && d.active
  }

  // The tables with a fresh run of the workflow for the event.
  function WithNewRun(s: Store, ev: Event, workflow: string): Store {
    var row := Run(ev.tenant, workflow, ev.subscriber, ev.name, ev.payload, Running, 0, NoWake, "");
    s.(runs := s.runs[s.nextId := row], nextId := s.nextId + 1)
  }

  // An event that no active workflow of its tenant answers starts nothing. One that some do, if it commits, starts a
  // run of one of them and takes it along a path from the first step.
  lemma {:induction false} TriggerMeans(s: Store, ev: Event, env: Env)
    requires ev.run.NoRun? && PickOk(s, ev, env.pick)
    ensures (forall id :: id in s.workflows ==> !Answers(s.workflows[id], ev)) ==> Handled(s, ev, env).store == s
    ensures (exists id :: id in s.workflows && Answers(s.workflows[id], ev)) && Handled(s, ev, env).committed ==>
              && env.pick in s.workflows && Answers(s.workflows[env.pick], ev)
              && TookSomePath(WithNewRun(s, ev, env.pick), Handled(s, ev, env).store, ev, s.workflows[env.pick].steps,
                              s.nextId, 0, env)
  {
    if id :| id in s.workflows && Answers(s.workflows[id], ev) {
      assert Active(s, id, ev);
      if Handled(s, ev, env).committed {
        var tx := Statement(Statement(BeginTx(s, env.faults), env.faults, true), env.faults, true);
        ExecutedFromMeans(Created(tx, ev, env.pick), ev, s.workflows[env.pick].steps, s.nextId, 0, env);
      }
    }
  }

  // A resume message for a running run, if it commits, takes that run along a path from its stored position, as the
  // event it was started by; for any other run it does nothing.
  lemma {:induction false} ResumeMeans(s: Store, ev: Event, env: Env)
    requires ev.run.OfRun?
    ensures var run := ev.run.id;
            if run in s.runs && s.runs[run].status == Running && s.runs[run].workflow in s.workflows then
              Handled(s, ev, env).committed ==>
                var row := s.runs[run];
                TookSomePath(s, Handled(s, ev, env).store,
                             Event(row.tenant, row.subscriber, row.trigger, row.payload, OfRun(run)),
                             s.workflows[row.workflow].steps, run, row.index, env)
            else Handled(s, ev, env).store == s
  {
    var run := ev.run.id;
    if Resumable(s, run) && Handled(s, ev, env).committed {
      var tx := Statement(BeginTx(s, env.faults), env.faults, true);
      ExecutedFromMeans(tx, EventOf(s, run), StepsOf(s, run), run, s.runs[run].index, env);
    }
  }
}
