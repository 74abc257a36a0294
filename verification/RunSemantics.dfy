// What handling an event does, stated on the tables: the run row follows the walk, the jobs follow the visits,
// and the books of notifications and jobs stay balanced whatever fails.
module RunSemantics {
  import opened Faults
  import opened Walk
  import opened Workflow
  import opened Engine
  import Preferences
  import Subjects

  // ---- The row and the dispatches a pass stands for ----

  // A run row after a pass with the given outcome.
  function RowAfter(row: Run, steps: seq<Step>, o: Outcome, now: int): Run {
    match o
    case Finished(_) => CompletedRow(row, |steps|)
    case Paused(_, at, next) => if at < |steps| then PausedRow(row, steps[at], next, now) else row
    case GuardTripped(_) => FailedRow(row)
  }

  // The visited channel steps the subscriber is opted in to.
  function Served(steps: seq<Step>, matrix: Preferences.Matrix, ev: Event, visits: seq<nat>): seq<Step> {
    if visits == [] then []
    else
      var rest := Served(steps, matrix, ev, visits[1..]);
      if visits[0] < |steps| && OptedIn(matrix, ev, steps[visits[0]].channel) then [steps[visits[0]]] + rest else rest
  }

  // One notification row and one job, under one fresh id.
  function Sent(s: Store, ev: Event, step: Step, run: nat): Store {
    s.(notifications := s.notifications[s.nextId := NotificationFor(ev, step, run)],
       jobs := s.jobs + [JobFor(ev, step, s.nextId)],
       nextId := s.nextId + 1)
  }

  function SentAll(s: Store, ev: Event, steps: seq<Step>, run: nat): Store
    decreases steps
  {
    if steps == [] then s else SentAll(Sent(s, ev, steps[0], run), ev, steps[1..], run)
  }

  function PassResult(s: Store, ev: Event, steps: seq<Step>, run: nat, o: Outcome, now: int): Store
    requires run in s.runs
  {
    var s1 := SentAll(s, ev, Served(steps, s.matrix, ev, o.visits), run);
    s1.(runs := s.runs[run := RowAfter(s.runs[run], steps, o, now)])
  }

  lemma {:induction false} SentAllFrame(s: Store, ev: Event, steps: seq<Step>, run: nat)
    ensures var t := SentAll(s, ev, steps, run);
            && t.runs == s.runs && t.workflows == s.workflows && t.matrix == s.matrix
            && t.nextId == s.nextId + |steps| && |t.jobs| == |s.jobs| + |steps|
    decreases steps
  {
    if steps != [] {
      SentAllFrame(Sent(s, ev, steps[0], run), ev, steps[1..], run);
    }
  }

  lemma {:induction false} DispatchedExact(tx: Tx, ev: Event, step: Step, run: nat, faults: seq<Fault>)
    ensures var r := Dispatched(tx, ev, step, run, faults);
            r.ok ==>
              !tx.aborted && !r.tx.aborted &&
              r.tx.store ==
              if OptedIn(tx.store.matrix, ev, step.channel) then Sent(tx.store, ev, step, run) else tx.store
  {
  }

  // A pass that succeeds, under any script of failures, leaves exactly the tables its outcome on the control flow
  // stands for: the row of the walk's outcome, and one notification and job per opted-in channel step visited.
  lemma {:induction false} ExecutedExact(
    tx: Tx, ev: Event, steps: seq<Step>, flow: Flow, run: nat, i: nat, visited: nat, env: Env
  )
    requires |flow| == |steps| && run in tx.store.runs
    ensures var r := Executed(tx, ev, steps, flow, run, i, visited, env);
            r.ok ==>
              && !r.tx.aborted
              && r.tx.store == PassResult(tx.store, ev, steps, run, Segment(flow, i, visited), env.now)
    decreases MaxIterations(flow) + 1 - visited
  {
    var r := Executed(tx, ev, steps, flow, run, i, visited, env);
    if r.ok && i < |flow| && visited <= MaxIterations(flow) && !flow[i].mark.Delay? {
      var o := Segment(flow, flow[i].next, visited + 1);
      var tx1 := Strode(tx, ev, steps[i], flow[i], run, env).result.tx;
      if flow[i].mark.Channel? {
        DispatchedExact(tx, ev, steps[i], run, env.faults);
        assert ([i] + o.visits)[1..] == o.visits;
      } else {
        assert [] + o.visits == o.visits;
      }
      ExecutedExact(tx1, ev, steps, flow, run, flow[i].next, visited + 1, env);
      PassSteps(tx.store, tx1.store, ev, steps, flow, run, i, o, env.now);
    }
  }

  // Serving one visit and then the rest is serving them all.
  lemma {:induction false} PassSteps(
    s: Store, s1: Store, ev: Event, steps: seq<Step>, flow: Flow, run: nat, i: nat, o: Outcome, now: int
  )
    requires |flow| == |steps| && run in s.runs && i < |flow|
    requires s1 == if flow[i].mark.Channel? && OptedIn(s.matrix, ev, steps[i].channel)
                   then Sent(s, ev, steps[i], run) else s
    ensures PassResult(s1, ev, steps, run, o, now) == PassResult(s, ev, steps, run, Prepend(VisitOf(flow, i), o), now)
  {
    var v := VisitOf(flow, i);
    var rest := Served(steps, s.matrix, ev, o.visits);
    if flow[i].mark.Channel? {
      assert (v + o.visits)[1..] == o.visits;
      if OptedIn(s.matrix, ev, steps[i].channel) {
        assert ([steps[i]] + rest)[1..] == rest;
      }
    } else {
      assert v + o.visits == o.visits;
    }
  }

  // ---- The books ----

  // A job that belongs to a notification row.
  predicate Backs(j: Job, id: nat, n: Notification) {
    && j.notification == id && j.tenant == n.tenant && j.subscriber == n.subscriber && j.channel == n.channel
    && j.template == n.template
  }

  // No two jobs carry the same notification, and every job is on its tenant's subject.
  ghost predicate JobsInOrder(jobs: seq<Job>, nextId: nat) {
    && (forall k :: 0 <= k < |jobs| ==> jobs[k].notification < nextId)
    && (forall j, k :: 0 <= j < k < |jobs| ==> jobs[j].notification != jobs[k].notification)
    && (forall k :: 0 <= k < |jobs| ==> jobs[k].subject == Subjects.ChannelSubject(jobs[k].tenant, jobs[k].channel))
  }

  ghost predicate HasJob(jobs: seq<Job>, id: nat, n: Notification) {
    exists k :: 0 <= k < |jobs| && Backs(jobs[k], id, n)
  }

  ghost predicate AllHaveJobs(notifications: map<nat, Notification>, jobs: seq<Job>) {
    forall id :: id in notifications ==> HasJob(jobs, id, notifications[id])
  }

  ghost predicate RunsOwn(notifications: map<nat, Notification>, runs: map<nat, Run>) {
    forall id :: id in notifications ==>
      notifications[id].run in runs && runs[notifications[id].run].tenant == notifications[id].tenant
  }

  // Ids in use are below the next one and the jobs are in order.
  ghost predicate Orderly(s: Store) {
    && (forall id :: id in s.notifications ==> id < s.nextId)
    && (forall id :: id in s.runs ==> id < s.nextId)
    && JobsInOrder(s.jobs, s.nextId)
  }

  // Every notification row has a job of its own and a run of its own tenant.
  ghost predicate Backed(s: Store) {
    AllHaveJobs(s.notifications, s.jobs) && RunsOwn(s.notifications, s.runs)
  }

  // Ids and jobs are only ever added, and new jobs and rows carry new ids.
  ghost predicate Grown(s: Store, t: Store) {
    && s.nextId <= t.nextId && s.jobs <= t.jobs
    && (forall k :: |s.jobs| <= k < |t.jobs| ==> t.jobs[k].notification >= s.nextId)
    && forall id :: id < s.nextId ==> (id in t.notifications <==> id in s.notifications)
  }

  lemma {:induction false} JobsGrow(notifications: map<nat, Notification>, jobs: seq<Job>, more: seq<Job>)
    requires AllHaveJobs(notifications, jobs) && jobs <= more
    ensures AllHaveJobs(notifications, more)
  {
    forall id | id in notifications ensures HasJob(more, id, notifications[id]) {
      var k :| 0 <= k < |jobs| && Backs(jobs[k], id, notifications[id]);
      assert more[k] == jobs[k];
    }
  }

  lemma {:induction false} JobAppended(jobs: seq<Job>, nextId: nat, j: Job)
    requires JobsInOrder(jobs, nextId) && j.notification == nextId
    requires j.subject == Subjects.ChannelSubject(j.tenant, j.channel)
    ensures JobsInOrder(jobs + [j], nextId + 1)
  {
    var more := jobs + [j];
    forall k | 0 <= k < |more| ensures more[k] == (if k < |jobs| then jobs[k] else j) {
    }
  }

  lemma {:induction false} RowAppended(
    notifications: map<nat, Notification>, jobs: seq<Job>, id: nat, n: Notification, j: Job
  )
    requires AllHaveJobs(notifications, jobs) && Backs(j, id, n)
    ensures AllHaveJobs(notifications[id := n], jobs + [j])
  {
    JobsGrow(notifications, jobs, jobs + [j]);
    assert (jobs + [j])[|jobs|] == j;
    assert HasJob(jobs + [j], id, n);
  }

  lemma {:induction false} SentBalanced(s: Store, ev: Event, step: Step, run: nat)
    requires Orderly(s) && Backed(s) && run in s.runs && s.runs[run].tenant == ev.tenant
    ensures Orderly(Sent(s, ev, step, run)) && Backed(Sent(s, ev, step, run)) && Grown(s, Sent(s, ev, step, run))
  {
    var n, j := NotificationFor(ev, step, run), JobFor(ev, step, s.nextId);
    JobAppended(s.jobs, s.nextId, j);
    RowAppended(s.notifications, s.jobs, s.nextId, n, j);
  }

  lemma {:induction false} InsertedOrderly(tx: Tx, ev: Event, step: Step, run: nat)
    requires Orderly(tx.store)
    ensures Orderly(Inserted(tx, ev, step, run).store)
    ensures var t := Inserted(tx, ev, step, run).store;
            JobsInOrder(t.jobs + [JobFor(ev, step, tx.store.nextId)], t.nextId)
  {
    JobAppended(tx.store.jobs, tx.store.nextId, JobFor(ev, step, tx.store.nextId));
  }

  // One dispatch, whatever fails, keeps ids and jobs in order; if it succeeds the books still balance.
  lemma {:induction false} DispatchedBalanced(tx: Tx, ev: Event, step: Step, run: nat, faults: seq<Fault>)
    requires Orderly(tx.store) && Backed(tx.store) && run in tx.store.runs && tx.store.runs[run].tenant == ev.tenant
    ensures var r := Dispatched(tx, ev, step, run, faults);
            && Orderly(r.tx.store) && Grown(tx.store, r.tx.store) && (r.ok ==> Backed(r.tx.store))
            && r.tx.store.runs == tx.store.runs
  {
    DispatchedExact(tx, ev, step, run, faults);
    SentBalanced(tx.store, ev, step, run);
    InsertedOrderly(Statement(Statement(tx, faults, true), faults, Insertable(ev, step.channel)), ev, step, run);
  }

  lemma {:induction false} UpdateBalanced(tx: Tx, faults: seq<Fault>, id: nat, row: Run)
    requires Orderly(tx.store) && Backed(tx.store) && (id in tx.store.runs ==> row.tenant == tx.store.runs[id].tenant)
    ensures var r := UpdateRun(tx, faults, id, row);
            Orderly(r.tx.store) && Backed(r.tx.store) && Grown(tx.store, r.tx.store)
  {
    var s, t := tx.store, UpdateRun(tx, faults, id, row).tx.store;
    assert t.jobs == s.jobs && t.notifications == s.notifications;
  }

  // What a transaction leaves behind, if it ends well or badly.
  ghost predicate Balanced(s: Store, r: Result) {
    Orderly(r.tx.store) && Grown(s, r.tx.store) && (r.ok ==> Backed(r.tx.store))
  }

  lemma {:induction false} GrownChain(a: Store, b: Store, c: Store)
    requires Grown(a, b) && Grown(b, c)
    ensures Grown(a, c)
  {
    forall k | |a.jobs| <= k < |c.jobs| ensures c.jobs[k].notification >= a.nextId {
      assert k < |b.jobs| ==> c.jobs[k] == b.jobs[k];
    }
  }

  lemma {:induction false} StrideBalanced(tx: Tx, ev: Event, step: Step, node: Node, run: nat, env: Env)
    requires Orderly(tx.store) && Backed(tx.store) && run in tx.store.runs && tx.store.runs[run].tenant == ev.tenant
    ensures var r := Strode(tx, ev, step, node, run, env).result;
            Balanced(tx.store, r) && run in r.tx.store.runs && r.tx.store.runs[run].tenant == ev.tenant
  {
    match node.mark
    case Channel => DispatchedBalanced(tx, ev, step, run, env.faults);
    case Delay => UpdateBalanced(tx, env.faults, run, PausedRow(RowOf(tx, run, EmptyRow()), step, node.next, env.now));
    case Plain =>
  }

  lemma {:induction false} ExecutedBalanced(
    tx: Tx, ev: Event, steps: seq<Step>, flow: Flow, run: nat, i: nat, visited: nat, env: Env
  )
    requires |flow| == |steps|
    requires Orderly(tx.store) && Backed(tx.store) && run in tx.store.runs && tx.store.runs[run].tenant == ev.tenant
    ensures Balanced(tx.store, Executed(tx, ev, steps, flow, run, i, visited, env))
    decreases MaxIterations(flow) + 1 - visited
  {
    if i >= |flow| {
      UpdateBalanced(tx, env.faults, run, CompletedRow(RowOf(tx, run, EmptyRow()), |flow|));
    } else if visited > MaxIterations(flow) {
      UpdateBalanced(tx, env.faults, run, FailedRow(RowOf(tx, run, EmptyRow())));
    } else {
      var st := Strode(tx, ev, steps[i], flow[i], run, env);
      StrideBalanced(tx, ev, steps[i], flow[i], run, env);
      ExecutedStep(tx, ev, steps, flow, run, i, visited, env, st);
      if st.more && st.result.ok {
        ExecutedBalanced(st.result.tx, ev, steps, flow, run, flow[i].next, visited + 1, env);
        var r := Executed(st.result.tx, ev, steps, flow, run, flow[i].next, visited + 1, env);
        GrownChain(tx.store, st.result.tx.store, r.tx.store);
      }
    }
  }

  lemma {:induction false} RolledBackBalanced(before: Store, after: Store)
    requires Orderly(before) && Backed(before) && Orderly(after) && Grown(before, after)
    ensures Orderly(RolledBack(before, after)) && Backed(RolledBack(before, after))
  {
    JobsGrow(before.notifications, before.jobs, after.jobs);
  }

  lemma {:induction false} CreatedBalanced(tx: Tx, ev: Event, workflow: string)
    requires Orderly(tx.store) && Backed(tx.store)
    ensures Orderly(Created(tx, ev, workflow).store) && Backed(Created(tx, ev, workflow).store)
    ensures Grown(tx.store, Created(tx, ev, workflow).store)
  {
    var s, t := tx.store, Created(tx, ev, workflow).store;
    assert t.jobs == s.jobs && t.notifications == s.notifications;
  }

  lemma {:induction false} ResumedBalanced(tx: Tx, run: nat, env: Env)
    requires Orderly(tx.store) && Backed(tx.store)
    ensures Balanced(tx.store, Resumed(tx, run, env))
  {
    var s, tx1 := tx.store, Statement(tx, env.faults, true);
    if !tx1.aborted && Resumable(s, run) && Readable(s, run) {
      var ev := EventOf(s, run);
      ExecutedBalanced(tx1, ev, StepsOf(s, run), FlowOf(StepsOf(s, run), VerdictOf(env, ev)), run,
                       ClampStart(s.runs[run].index), 0, env);
    }
  }

  lemma {:induction false} ProcessedBalanced(tx: Tx, ev: Event, env: Env)
    requires Orderly(tx.store) && Backed(tx.store)
    ensures Balanced(tx.store, Processed(tx, ev, env))
  {
    var s, tx1 := tx.store, Statement(tx, env.faults, true);
    var tx2 := Statement(tx1, env.faults, true);
    if !tx2.aborted && Active(s, env.pick, ev) && s.workflows[env.pick].readable {
      var steps := s.workflows[env.pick].steps;
      CreatedBalanced(tx2, ev, env.pick);
      ExecutedBalanced(Created(tx2, ev, env.pick), ev, steps, FlowOf(steps, VerdictOf(env, ev)), s.nextId, 0, 0, env);
    }
  }

  // Handling any event, with any failures anywhere, keeps the books balanced and only ever adds jobs and ids.
  lemma {:induction false} HandledBalanced(s: Store, ev: Event, env: Env)
    requires Orderly(s) && Backed(s)
    ensures var t := Handled(s, ev, env).store;
            Orderly(t) && Backed(t) && Grown(s, t)
  {
    var tx := BeginTx(s, env.faults);
    if !tx.aborted {
      var r := if ev.run.OfRun? then Resumed(tx, ev.run.id, env) else Processed(tx, ev, env);
      if ev.run.OfRun? {
        ResumedBalanced(tx, ev.run.id, env);
      } else {
        ProcessedBalanced(tx, ev, env);
      }
      assert Balanced(s, r);
      RolledBackBalanced(s, r.tx.store);
    }
  }

  // ---- The runs table ----

  // The outcome on the control flow of the pass an event triggers on a run with this row.
  function PassOutcome(ev: Event, steps: seq<Step>, start: int, env: Env): Outcome {
    Segment(FlowOf(steps, VerdictOf(env, ev)), ClampStart(start), 0)
  }

  function ResumedRow(s: Store, run: nat, env: Env): Run
    requires Resumable(s, run)
  {
    var row, steps := s.runs[run], StepsOf(s, run);
    RowAfter(row, steps, PassOutcome(EventOf(s, run), steps, row.index, env), env.now)
  }

  function StartedRow(s: Store, ev: Event, env: Env): Run
    requires Active(s, env.pick, ev)
  {
    var steps := s.workflows[env.pick].steps;
    RowAfter(NewRow(ev, env.pick), steps, PassOutcome(ev, steps, 0, env), env.now)
  }

  // What an event leaves when its transaction commits: the pass it resumes or starts, or nothing.
  function CommittedStore(s: Store, ev: Event, env: Env): Store {
    if ev.run.OfRun? then
      if Resumable(s, ev.run.id) then
        var ev', steps := EventOf(s, ev.run.id), StepsOf(s, ev.run.id);
        PassResult(s, ev', steps, ev.run.id, PassOutcome(ev', steps, s.runs[ev.run.id].index, env), env.now)
      else s
    else if Active(s, env.pick, ev) then
      var steps := s.workflows[env.pick].steps;
      PassResult(Started(s, ev, env.pick), ev, steps, s.nextId, PassOutcome(ev, steps, 0, env), env.now)
    else s
  }

  lemma {:induction false} ResumedExact(s: Store, event: Event, env: Env)
    requires event.run.OfRun?
    ensures var r := Resumed(BeginTx(s, env.faults), event.run.id, env);
            r.ok && !r.tx.aborted ==> r.tx.store == CommittedStore(s, event, env)
  {
    var run := event.run.id;
    var tx1 := Statement(BeginTx(s, env.faults), env.faults, true);
    if Resumable(s, run) {
      var ev, steps := EventOf(s, run), StepsOf(s, run);
      ExecutedExact(tx1, ev, steps, FlowOf(steps, VerdictOf(env, ev)), run, ClampStart(s.runs[run].index), 0, env);
    }
  }

  lemma {:induction false} ProcessedExact(s: Store, ev: Event, env: Env)
    requires ev.run.NoRun?
    ensures var r := Processed(BeginTx(s, env.faults), ev, env);
            r.ok && !r.tx.aborted ==> r.tx.store == CommittedStore(s, ev, env)
  {
    var tx2 := Statement(Statement(BeginTx(s, env.faults), env.faults, true), env.faults, true);
    if Active(s, env.pick, ev) {
      var steps := s.workflows[env.pick].steps;
      ExecutedExact(Created(tx2, ev, env.pick), ev, steps, FlowOf(steps, VerdictOf(env, ev)), s.nextId, 0, 0, env);
    }
  }

  // A committed event leaves exactly that, and any other leaves the tables as they were.
  lemma {:induction false} HandledExact(s: Store, ev: Event, env: Env)
    ensures var h := Handled(s, ev, env);
            if h.committed then h.store == CommittedStore(s, ev, env)
            else h.store == s.(nextId := h.store.nextId, jobs := h.store.jobs)
  {
    if ev.run.OfRun? {
      ResumedExact(s, ev, env);
    } else {
      ProcessedExact(s, ev, env);
    }
  }

  // The runs table alone: the one run the event resumes or starts moves to where the walk takes it.
  function RunsAfter(s: Store, ev: Event, env: Env): map<nat, Run> {
    if !Handled(s, ev, env).committed then s.runs
    else if ev.run.OfRun? then
      if Resumable(s, ev.run.id) then s.runs[ev.run.id := ResumedRow(s, ev.run.id, env)] else s.runs
    else if Active(s, env.pick, ev) then s.runs[s.nextId := StartedRow(s, ev, env)]
    else s.runs
  }

  lemma {:induction false} HandledRuns(s: Store, ev: Event, env: Env)
    ensures Handled(s, ev, env).store.runs == RunsAfter(s, ev, env)
    ensures Handled(s, ev, env).store.workflows == s.workflows
    ensures Handled(s, ev, env).store.matrix == s.matrix
  {
    HandledExact(s, ev, env);
    if ev.run.OfRun? {
      if Resumable(s, ev.run.id) {
        var ev', steps := EventOf(s, ev.run.id), StepsOf(s, ev.run.id);
        var o := PassOutcome(ev', steps, s.runs[ev.run.id].index, env);
        SentAllFrame(s, ev', Served(steps, s.matrix, ev', o.visits), ev.run.id);
      }
    } else if Active(s, env.pick, ev) {
      var steps := s.workflows[env.pick].steps;
      var served := Served(steps, s.matrix, ev, PassOutcome(ev, steps, 0, env).visits);
      SentAllFrame(Started(s, ev, env.pick), ev, served, s.nextId);
      var row := StartedRow(s, ev, env);
      assert s.runs[s.nextId := NewRow(ev, env.pick)][s.nextId := row] == s.runs[s.nextId := row];
    }
  }

  // ---- Rows for the jobs a pass publishes ----

  // Every job past the first n has a notification row.
  ghost predicate RowsFrom(s: Store, n: nat) {
    forall k :: n <= k < |s.jobs| ==> s.jobs[k].notification in s.notifications
  }

  lemma {:induction false} SentAllRows(s: Store, ev: Event, steps: seq<Step>, run: nat, n: nat)
    requires RowsFrom(s, n)
    ensures RowsFrom(SentAll(s, ev, steps, run), n)
    decreases steps
  {
    if steps != [] {
      SentAllRows(Sent(s, ev, steps[0], run), ev, steps[1..], run, n);
    }
  }

  // Every job a committed event publishes has its row.
  lemma {:induction false} CommittedRows(s: Store, ev: Event, env: Env)
    requires Handled(s, ev, env).committed
    ensures RowsFrom(Handled(s, ev, env).store, |s.jobs|)
  {
    HandledExact(s, ev, env);
    if ev.run.OfRun? {
      if Resumable(s, ev.run.id) {
        var ev', steps := EventOf(s, ev.run.id), StepsOf(s, ev.run.id);
        var o := PassOutcome(ev', steps, s.runs[ev.run.id].index, env);
        SentAllRows(s, ev', Served(steps, s.matrix, ev', o.visits), ev.run.id, |s.jobs|);
      }
    } else if Active(s, env.pick, ev) {
      var steps := s.workflows[env.pick].steps;
      var served := Served(steps, s.matrix, ev, PassOutcome(ev, steps, 0, env).visits);
      SentAllRows(Started(s, ev, env.pick), ev, served, s.nextId, |s.jobs|);
    }
  }
}
