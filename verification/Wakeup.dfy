// The distributed life of runs: events triggered by clients, passes by engines, wake-ups by the scheduler, each a
// tenant transaction with publishes outside it, interleaved in any order and failing in any way.
module Wakeup {
  import opened Faults
  import opened Walk
  import opened Workflow
  import opened Engine
  import opened RunSemantics
  import opened Transparency
  import Condition
  import Preferences
  import Subjects

  // ---- Messages and states ----

  datatype Envelope = Envelope(subject: string, event: Event)

  // The scheduler's resume message: nothing but the tenant and the run.
  function WakeUp(tenant: string, run: nat): Envelope {
    Envelope(Subjects.EventSubject(tenant), Event(tenant, "", "", map[], OfRun(run)))
  }

  // events: the messages not yet acknowledged. Two history variables: due, the last resume time written for a
  // run; lost, the runs whose wake-up a committed tick failed to publish.
  datatype System = System(store: Store, events: multiset<Envelope>, clock: int, due: map<nat, int>, lost: set<nat>)

  function InFlight(s: System, run: nat): nat
    requires run in s.store.runs
  {
    s.events[WakeUp(s.store.runs[run].tenant, run)]
  }

  function Pending(row: Run): nat {
    if row.resumeAt.WakeAt? then 1 else 0
  }

  // ---- The scheduler's tick for one tenant ----

  const BATCH: nat := 50

  predicate IsDue(s: Store, tenant: string, now: int, run: nat) {
    && run in s.runs && s.runs[run].tenant == tenant && s.runs[run].status == Running
    && s.runs[run].resumeAt.WakeAt? && s.runs[run].resumeAt.t <= now
  }

  // An answer to the due query: distinct due runs by resume time, as many as there are up to the limit, none later
  // than a due run left out. Ties may be broken in any way.
  ghost predicate IsDueBatch(s: Store, tenant: string, now: int, batch: seq<nat>) {
    && |batch| <= BATCH
    && (forall k :: 0 <= k < |batch| ==> IsDue(s, tenant, now, batch[k]))
    && (forall j, k :: 0 <= j < k < |batch| ==> batch[j] != batch[k])
    && (forall j, k :: 0 <= j < k < |batch| ==> s.runs[batch[j]].resumeAt.t <= s.runs[batch[k]].resumeAt.t)
    && (forall run :: IsDue(s, tenant, now, run) && run !in batch ==>
          |batch| == BATCH && forall k :: 0 <= k < |batch| ==> s.runs[batch[k]].resumeAt.t <= s.runs[run].resumeAt.t)
  }

  datatype Ticked = Ticked(tx: Tx, sent: seq<Envelope>, rejected: set<nat>)

  function Cleared(tx: Tx, run: nat): Tx {
    if run in tx.store.runs
    then tx.(store := tx.store.(runs := tx.store.runs[run := tx.store.runs[run].(resumeAt := NoWake)])) else tx
  }

  // One run: clear resume_at, then publish its wake-up. A failed clear skips the run; a failed publish is only
  // logged.
  function TurnOf(tx: Tx, tenant: string, run: nat, faults: seq<Fault>): Ticked {
    var tx1 := Statement(tx, faults, true);
    if tx1.aborted then Ticked(tx1, [], {})
    else
      var tx2 := Cleared(tx1, run).(used := tx1.used + 1);
      if FaultAt(faults, tx1.used) != Rejected then Ticked(tx2, [WakeUp(tenant, run)], {}) else Ticked(tx2, [], {run})
  }

  function TickRuns(tx: Tx, tenant: string, batch: seq<nat>, faults: seq<Fault>): Ticked
    decreases batch
  {
    if batch == [] then Ticked(tx, [], {})
    else
      var turn := TurnOf(tx, tenant, batch[0], faults);
      var rest := TickRuns(turn.tx, tenant, batch[1..], faults);
      Ticked(rest.tx, turn.sent + rest.sent, turn.rejected + rest.rejected)
  }

  // Begin, set the tenant, query the batch, then the loop.
  function TickBody(s: Store, tenant: string, batch: seq<nat>, faults: seq<Fault>): Ticked {
    var tx := Statement(BeginTx(s, faults), faults, true);
    if tx.aborted then Ticked(tx, [], {}) else TickRuns(tx, tenant, batch, faults)
  }

  // ---- Steps ----

  datatype Action =
    | Trigger(at: int, tenant: string, subscriber: string, name: string, payload: Condition.Payload, publish: Fault)
    | Deliver(at: int, message: Envelope, env: Env, ackLost: bool)
    | Tick(at: int, tenant: string, batch: seq<nat>, faults: seq<Fault>, commit: Fault)
    | Edit(at: int, id: string, definition: Definition)
    | Prefer(at: int, key: Preferences.Key, optedIn: bool)

  // One strictly advancing clock; messages are delivered while unacknowledged; the database answers queries
  // truthfully; a workflow keeps its tenant.
  ghost predicate Enabled(s: System, a: Action) {
    && s.clock < a.at
    && match a
       case Trigger(_, _, _, _, _, _) => true
       case Deliver(at, m, env, _) =>
         m in s.events && env.now == at && (m.event.run.NoRun? ==> PickOk(s.store, m.event, env.pick))
       case Tick(at, tenant, batch, _, _) => IsDueBatch(s.store, tenant, at, batch)
       case Edit(_, id, d) => id in s.store.workflows ==> d.tenant == s.store.workflows[id].tenant
       case Prefer(_, _, _) => true
  }

  function ResumeTimes(runs: map<nat, Run>): map<nat, int> {
    map r | r in runs && runs[r].resumeAt.WakeAt? :: runs[r].resumeAt.t
  }

  predicate Consumed(s: System, a: Action)
    requires a.Deliver?
  {
    Handled(s.store, a.message.event, a.env).ok && !a.ackLost
  }

  function Next(s: System, a: Action): System {
    match a
    case Trigger(at, tenant, subscriber, name, payload, publish) =>
      var m := Envelope(Subjects.EventSubject(tenant), Event(tenant, subscriber, name, payload, NoRun));
      s.(clock := at, events := if publish == Rejected then s.events else s.events + multiset{m})
    case Deliver(at, m, env, ackLost) =>
      var h := Handled(s.store, m.event, env);
      var left := if Consumed(s, a) then s.events - multiset{m} else s.events;
      System(h.store, left, at, s.due + ResumeTimes(h.store.runs), s.lost)
    case Tick(at, tenant, batch, faults, commit) =>
      var t := TickBody(s.store, tenant, batch, faults);
      var committed := Commits(t.tx.aborted, commit);
      System(if committed then t.tx.store else s.store, s.events + multiset(t.sent), at, s.due,
             if committed then s.lost + t.rejected else s.lost)
    case Edit(at, id, d) => s.(clock := at, store := s.store.(workflows := s.store.workflows[id := d]))
    case Prefer(at, key, optedIn) => s.(clock := at, store := s.store.(matrix := s.store.matrix[key := optedIn]))
  }

  const START := System(Store(map[], map[], map[], map[], 0, []), multiset{}, 0, map[], {})

  function RunAll(s: System, actions: seq<Action>): System {
    if actions == [] then s
    else Next(RunAll(s, actions[..|actions| - 1]), actions[|actions| - 1])
  }

  ghost predicate Legal(s: System, actions: seq<Action>) {
    if actions == [] then true
    else
      && Legal(s, actions[..|actions| - 1])
      && Enabled(RunAll(s, actions[..|actions| - 1]), actions[|actions| - 1])
  }

  lemma {:induction false} OneMore(s: System, actions: seq<Action>, a: Action)
    requires Legal(s, actions) && Enabled(RunAll(s, actions), a)
    ensures Legal(s, actions + [a]) && RunAll(s, actions + [a]) == Next(RunAll(s, actions), a)
  {
    assert (actions + [a])[..|actions|] == actions;
  }

  // A client's trigger queues the event it names, on its tenant's subject, unless the publish is rejected.
  lemma {:induction false} TriggerQueues(
    s: System, at: int, tenant: string, subscriber: string, name: string, payload: Condition.Payload, publish: Fault
  )
    ensures var m := Envelope("qeet-notify." + tenant + ".events", Event(tenant, subscriber, name, payload, NoRun));
            Next(s, Trigger(at, tenant, subscriber, name, payload, publish)) ==
            s.(clock := at, events := if publish == Rejected then s.events else s.events + multiset{m})
  {
    Subjects.SubjectsSpelled(tenant, "");
  }

  // ---- Coherence: holds whatever fails ----

  // Every event sits on its tenant's subject; a resume message is the scheduler's, for an existing run, in the name
  // of the tenant that owns the run.
  ghost predicate EventsOwn(s: System) {
    forall m :: m in s.events ==>
      && m.subject == Subjects.EventSubject(m.event.tenant)
      && (m.event.run.OfRun? ==>
            var r := m.event.run.id; r in s.store.runs && m == WakeUp(s.store.runs[r].tenant, r))
  }

  predicate WorkflowOwns(workflows: map<string, Definition>, row: Run) {
    row.workflow in workflows && workflows[row.workflow].tenant == row.tenant
  }

  ghost predicate RunsKnown(s: Store) {
    forall r :: r in s.runs ==> WorkflowOwns(s.workflows, s.runs[r])
  }

  ghost predicate Coherent(s: System) {
    Orderly(s.store) && Backed(s.store) && EventsOwn(s) && RunsKnown(s.store)
  }

  // Runs only ever gain rows and keep their tenant and workflow.
  ghost predicate RunsKept(a: map<nat, Run>, b: map<nat, Run>) {
    forall r :: r in a ==> r in b && b[r].tenant == a[r].tenant && b[r].workflow == a[r].workflow
  }

  // Nothing but rows of runs has changed, and no run its tenant or workflow.
  ghost predicate OnlyRuns(s: Store, t: Store) {
    t == s.(runs := t.runs) && t.runs.Keys == s.runs.Keys && RunsKept(s.runs, t.runs)
  }

  lemma {:induction false} OnlyRunsChain(a: Store, b: Store, c: Store)
    requires OnlyRuns(a, b) && OnlyRuns(b, c)
    ensures OnlyRuns(a, c)
  {
  }

  lemma {:induction false} TickRunsFrame(tx: Tx, tenant: string, batch: seq<nat>, faults: seq<Fault>)
    ensures OnlyRuns(tx.store, TickRuns(tx, tenant, batch, faults).tx.store)
    decreases batch
  {
    if batch != [] {
      var tx1 := TurnOf(tx, tenant, batch[0], faults).tx;
      TickRunsFrame(tx1, tenant, batch[1..], faults);
      OnlyRunsChain(tx.store, tx1.store, TickRuns(tx1, tenant, batch[1..], faults).tx.store);
    }
  }

  // A tick as a whole changes nothing but rows of runs.
  lemma {:induction false} TickFrame(s: System, a: Action)
    requires a.Tick?
    ensures OnlyRuns(s.store, Next(s, a).store)
  {
    TickRunsFrame(Statement(BeginTx(s.store, a.faults), a.faults, true), a.tenant, a.batch, a.faults);
  }

  lemma {:induction false} OnlyRunsCoherent(s: Store, t: Store)
    requires Orderly(s) && Backed(s) && RunsKnown(s) && OnlyRuns(s, t)
    ensures Orderly(t) && Backed(t) && RunsKnown(t)
  {
  }

  lemma {:induction false} TickSends(tx: Tx, tenant: string, batch: seq<nat>, faults: seq<Fault>, m: Envelope)
    requires m in TickRuns(tx, tenant, batch, faults).sent
    ensures m.event.run.OfRun? && m.event.run.id in batch && m == WakeUp(tenant, m.event.run.id)
    decreases batch
  {
    var tx1 := TurnOf(tx, tenant, batch[0], faults).tx;
    if m in TickRuns(tx1, tenant, batch[1..], faults).sent {
      TickSends(tx1, tenant, batch[1..], faults, m);
    }
  }

  lemma {:induction false} RowKept(runs: map<nat, Run>, run: nat, row: Run, workflows: map<string, Definition>)
    requires WorkflowOwns(workflows, row) && forall r :: r in runs ==> WorkflowOwns(workflows, runs[r])
    requires run in runs ==> row.tenant == runs[run].tenant && row.workflow == runs[run].workflow
    ensures RunsKept(runs, runs[run := row])
    ensures var more := runs[run := row];
            forall r :: r in more ==> WorkflowOwns(workflows, more[r])
  {
  }

  lemma {:induction false} DeliverKeepsRuns(s: Store, ev: Event, env: Env)
    requires Orderly(s) && RunsKnown(s)
    ensures RunsKept(s.runs, Handled(s, ev, env).store.runs) && RunsKnown(Handled(s, ev, env).store)
  {
    HandledRuns(s, ev, env);
    RunsAfterKept(s, ev, env);
  }

  lemma {:induction false} RunsAfterKept(s: Store, ev: Event, env: Env)
    requires Orderly(s) && RunsKnown(s)
    ensures RunsKept(s.runs, RunsAfter(s, ev, env)) && RunsKnown(s.(runs := RunsAfter(s, ev, env)))
  {
    if Handled(s, ev, env).committed {
      if ev.run.OfRun? && Resumable(s, ev.run.id) {
        RowKept(s.runs, ev.run.id, ResumedRow(s, ev.run.id, env), s.workflows);
      } else if ev.run.NoRun? && Active(s, env.pick, ev) {
        RowKept(s.runs, s.nextId, StartedRow(s, ev, env), s.workflows);
      }
    }
  }

  lemma {:induction false} DeliverKeepsCoherence(s: System, a: Action)
    requires Coherent(s) && Enabled(s, a) && a.Deliver?
    ensures Coherent(Next(s, a)) && RunsKept(s.store.runs, Next(s, a).store.runs)
  {
    HandledBalanced(s.store, a.message.event, a.env);
    DeliverKeepsRuns(s.store, a.message.event, a.env);
    var t := Next(s, a);
    assert forall m :: m in t.events ==> m in s.events;
  }

  lemma {:induction false} TickKeepsCoherence(s: System, a: Action)
    requires Coherent(s) && Enabled(s, a) && a.Tick?
    ensures Coherent(Next(s, a)) && RunsKept(s.store.runs, Next(s, a).store.runs)
  {
    TickFrame(s, a);
    OnlyRunsCoherent(s.store, Next(s, a).store);
    TickEvents(s, a);
  }

  // A tick adds wake-ups of its batch and nothing else.
  lemma {:induction false} TickEvents(s: System, a: Action)
    requires a.Tick?
    ensures forall m | m in Next(s, a).events && m !in s.events ::
      m.event.run.OfRun? && m.event.run.id in a.batch && m == WakeUp(a.tenant, m.event.run.id)
  {
    forall m | m in Next(s, a).events && m !in s.events
      ensures m.event.run.OfRun? && m.event.run.id in a.batch && m == WakeUp(a.tenant, m.event.run.id)
    {
      TickSends(Statement(BeginTx(s.store, a.faults), a.faults, true), a.tenant, a.batch, a.faults, m);
    }
  }

  lemma {:induction false} StepKeepsCoherence(s: System, a: Action)
    requires Coherent(s) && Enabled(s, a)
    ensures Coherent(Next(s, a)) && RunsKept(s.store.runs, Next(s, a).store.runs)
  {
    match a
    case Deliver(_, _, _, _) => DeliverKeepsCoherence(s, a);
    case Tick(_, _, _, _, _) => TickKeepsCoherence(s, a);
    case Trigger(_, tenant, _, _, _, _) =>
      forall m | m in Next(s, a).events
        ensures m in s.events || (m.event.run.NoRun? && m.subject == Subjects.EventSubject(m.event.tenant))
      {
      }
    case Edit(_, _, _) =>
    case Prefer(_, _, _) =>
  }

  // In every reachable state, whatever failed on the way: ids are unique, every committed notification row has
  // exactly one published job, carrying its id, tenant, channel and template, and every event and job sits on the
  // subject of the tenant that owns its run and notification.
  lemma {:induction false} AlwaysCoherent(actions: seq<Action>)
    requires Legal(START, actions)
    ensures Coherent(RunAll(START, actions))
  {
    if actions != [] {
      AlwaysCoherent(actions[..|actions| - 1]);
      StepKeepsCoherence(RunAll(START, actions[..|actions| - 1]), actions[|actions| - 1]);
    }
  }

  lemma {:induction false} ExactlyOneJob(s: Store, id: nat)
    requires Orderly(s) && Backed(s) && id in s.notifications
    ensures exists k :: 0 <= k < |s.jobs| && Backs(s.jobs[k], id, s.notifications[id])
              && s.jobs[k].subject == Subjects.ChannelSubject(s.notifications[id].tenant, s.notifications[id].channel)
              && forall j :: 0 <= j < |s.jobs| && s.jobs[j].notification == id ==> j == k
  {
    assert HasJob(s.jobs, id, s.notifications[id]);
  }

  // Only the scheduler creates resume messages: no other step raises the number in flight for any run.
  lemma {:induction false} OnlyTicksWake(s: System, a: Action, m: Envelope)
    requires !a.Tick? && m.event.run.OfRun?
    ensures Next(s, a).events[m] <= s.events[m]
  {
  }

  // A job whose notification id no row carries, though the id is used up.
  ghost predicate Orphan(s: Store, k: nat) {
    k < |s.jobs| && s.jobs[k].notification !in s.notifications && s.jobs[k].notification < s.nextId
  }

  lemma {:induction false} OrphansStayIn(s: Store, t: Store, k: nat)
    requires Orderly(s) && Grown(s, t) && k < |s.jobs|
    ensures k < |t.jobs| && (Orphan(t, k) <==> Orphan(s, k))
  {
  }

  // Once published, a job is an orphan for ever or never.
  lemma {:induction false} OrphansStay(s: System, a: Action, k: nat)
    requires Coherent(s) && Enabled(s, a) && k < |s.store.jobs|
    ensures k < |Next(s, a).store.jobs|
    ensures Orphan(Next(s, a).store, k) <==> Orphan(s.store, k)
  {
    if a.Deliver? {
      HandledBalanced(s.store, a.message.event, a.env);
    } else if a.Tick? {
      TickFrame(s, a);
    }
    OrphansStayIn(s.store, Next(s, a).store, k);
  }

  // Of the jobs a delivery publishes, all are orphans if its transaction does not commit, and none if it does.
  lemma {:induction false} OrphanIffRolledBack(s: System, a: Action, k: nat)
    requires Coherent(s) && Enabled(s, a) && a.Deliver?
    requires |s.store.jobs| <= k < |Next(s, a).store.jobs|
    ensures Orphan(Next(s, a).store, k) <==> !Handled(s.store, a.message.event, a.env).committed
  {
    HandledBalanced(s.store, a.message.event, a.env);
    if Handled(s.store, a.message.event, a.env).committed {
      CommittedRows(s.store, a.message.event, a.env);
    } else {
      HandledExact(s.store, a.message.event, a.env);
    }
  }

  // The job was published by a delivery of the history that did not commit.
  ghost predicate RolledBackJob(actions: seq<Action>, k: nat) {
    if actions == [] then false
    else
      var n := |actions| - 1;
      var s := RunAll(START, actions[..n]);
      if k < |s.store.jobs| then RolledBackJob(actions[..n], k)
      else
        && k < |RunAll(START, actions).store.jobs|
        && actions[n].Deliver? && !Handled(s.store, actions[n].message.event, actions[n].env).committed
  }

  lemma {:induction false} OnlyDeliveriesPublish(s: System, a: Action)
    requires !a.Deliver?
    ensures Next(s, a).store.jobs == s.store.jobs
  {
    if a.Tick? {
      TickFrame(s, a);
    }
  }

  // In every reachable state the orphans are exactly the jobs published by deliveries that did not commit.
  lemma {:induction false} OrphansExact(actions: seq<Action>, k: nat)
    requires Legal(START, actions)
    ensures Orphan(RunAll(START, actions).store, k) <==> RolledBackJob(actions, k)
  {
    if actions != [] {
      var n := |actions| - 1;
      var s, a := RunAll(START, actions[..n]), actions[n];
      OrphansExact(actions[..n], k);
      AlwaysCoherent(actions[..n]);
      if k < |s.store.jobs| {
        OrphansStay(s, a, k);
      } else if a.Deliver? {
        if k < |Next(s, a).store.jobs| {
          OrphanIffRolledBack(s, a, k);
        }
      } else {
        OnlyDeliveriesPublish(s, a);
      }
    }
  }

  // For instance, when only the commit fails: one orphan for each opted-in channel step of the pass, the run not
  // advanced, and the wake-up still there to do it all again.
  lemma {:induction false} RejectedCommitOrphansJobs(s: System, r: nat, env: Env)
    requires Coherent(s) && Resumable(s.store, r) && !Stuck(s.store, r, env.formats)
    requires WakeUp(s.store.runs[r].tenant, r) in s.events && s.clock < env.now
    requires env.faults == [] && env.commit == Rejected
    ensures var m := WakeUp(s.store.runs[r].tenant, r);
            var t := Next(s, Deliver(env.now, m, env, false));
            var served := Visited(s.store, r, Segment(FlowFor(s.store, r, env.formats), StartOf(s.store, r), 0).visits);
            && |t.store.jobs| == |s.store.jobs| + |served|
            && (forall k :: |s.store.jobs| <= k < |t.store.jobs| ==> Orphan(t.store, k))
            && t.store.runs == s.store.runs && t.events == s.events
  {
    var m := WakeUp(s.store.runs[r].tenant, r);
    var a := Deliver(env.now, m, env, false);
    assert m.event == WakeEvent(s.store, r);
    UnbrokenWake(s.store, r, env);
    var o := Segment(FlowFor(s.store, r, env.formats), StartOf(s.store, r), 0);
    SentAllFrame(s.store, EventOf(s.store, r), Visited(s.store, r, o.visits), r);
    forall k | |s.store.jobs| <= k < |Next(s, a).store.jobs| ensures Orphan(Next(s, a).store, k) {
      OrphanIffRolledBack(s, a, k);
    }
  }
}
