// The workflow engine: handling one event in one tenant transaction.
module Engine {
  import opened Faults
  import opened Walk
  import opened Workflow
  import Condition
  import Preferences
  import Subjects

  const SECOND: int := 1_000_000_000

  // ---- Tables and messages ----

  datatype RunRef = NoRun | OfRun(id: nat)

  datatype Event = Event(tenant: string, subscriber: string, name: string, payload: Condition.Payload, run: RunRef)

  datatype Status = Running | Completed | Failed

  datatype Wake = NoWake | WakeAt(t: int)

  datatype Run = Run(
    tenant: string,
    workflow: string,
    subscriber: string,
    trigger: string,
    payload: Condition.Payload,
    status: Status,
    index: int,
    resumeAt: Wake,
    error: string
  )

  // readable: the stored steps decode. If they do not, an event for the workflow fails and comes round again.
  datatype Definition = Definition(tenant: string, trigger: string, steps: seq<Step>, active: bool, readable: bool)

  datatype Notification = Notification(tenant: string, run: nat, subscriber: string, channel: string, template: string)

  datatype Job = Job(
    subject: string,
    tenant: string,
    notification: nat,
    subscriber: string,
    channel: string,
    template: string,
    payload: Condition.Payload
  )

  // The database, the supply of fresh ids, and every channel job ever published. Ids and publishes are not
  // part of any transaction.
  datatype Store = Store(
    workflows: map<string, Definition>,
    matrix: Preferences.Matrix,
    runs: map<nat, Run>,
    notifications: map<nat, Notification>,
    nextId: nat,
    jobs: seq<Job>
  )

  type Tx = Transaction<Store>

  datatype Result = Result(ok: bool, tx: Tx)

  // What the outside contributes to handling one event: how values print and parse, the engine's clock, the
  // workflow row the lookup returns, and failures.
  datatype Env = Env(formats: Condition.Formats, now: int, pick: string, faults: seq<Fault>, commit: Fault)

  // ---- Statements ----

  // UPDATE ... WHERE id: a missing row is not an error.
  function UpdateRun(tx: Tx, faults: seq<Fault>, id: nat, row: Run): Result {
    var tx1 := Statement(tx, faults, true);
    if tx1.aborted then Result(false, tx1)
    else if id !in tx1.store.runs then Result(true, tx1)
    else Result(true, tx1.(store := tx1.store.(runs := tx1.store.runs[id := row])))
  }

  function RowOf(tx: Tx, id: nat, default: Run): Run {
    if id in tx.store.runs then tx.store.runs[id] else default
  }

  // ---- dispatchChannel ----

  // The payload's category if it is a nonempty string, and "all" otherwise.
  function CategoryOf(payload: Condition.Payload): string {
    if "category" in payload && payload["category"].Str? && payload["category"].s != ""
    then payload["category"].s else Preferences.ALL
  }

  function PreferenceKey(ev: Event, channel: string): Preferences.Key {
    Preferences.Key(ev.tenant, ev.subscriber, channel, CategoryOf(ev.payload))
  }

  predicate OptedIn(matrix: Preferences.Matrix, ev: Event, channel: string) {
    Preferences.OptedIn(matrix, PreferenceKey(ev, channel))
  }

  // The notification table's constraints: a known channel and a subscriber.
  predicate Insertable(ev: Event, channel: string) {
    channel in Subjects.CHANNELS && ev.subscriber != ""
  }

  function NotificationFor(ev: Event, step: Step, run: nat): Notification {
    Notification(ev.tenant, run, ev.subscriber, step.channel, step.templateId)
  }

  function JobFor(ev: Event, step: Step, id: nat): Job {
    var subject := Subjects.ChannelSubject(ev.tenant, step.channel);
    Job(subject, ev.tenant, id, ev.subscriber, step.channel, step.templateId, ev.payload)
  }

  function Inserted(tx: Tx, ev: Event, step: Step, run: nat): Tx {
    var s := tx.store;
    var row := NotificationFor(ev, step, run);
    tx.(store := s.(notifications := s.notifications[s.nextId := row], nextId := s.nextId + 1))
  }

  // Insert the notification, then publish its job.
  function Enqueued(tx: Tx, ev: Event, step: Step, run: nat, faults: seq<Fault>): Result {
    var tx1 := Statement(tx, faults, Insertable(ev, step.channel));
    if tx1.aborted then Result(false, tx1)
    else
      var id := tx1.store.nextId;
      var tx2 := Inserted(tx1, ev, step, run);
      var fault := FaultAt(faults, tx2.used);
      var tx3 := tx2.(used := tx2.used + 1);
      var lands := fault != Rejected;
      Result(fault == NoFault,
             if lands then tx3.(store := tx3.store.(jobs := tx3.store.jobs + [JobFor(ev, step, id)])) else tx3)
  }

  // A failed preference read counts as opted in; the insert then fails because the transaction is aborted.
  function Dispatched(tx: Tx, ev: Event, step: Step, run: nat, faults: seq<Fault>): Result {
    var tx1 := Statement(tx, faults, true);
    if !tx1.aborted && !OptedIn(tx1.store.matrix, ev, step.channel) then Result(true, tx1)
    else Enqueued(tx1, ev, step, run, faults)
  }

  // ---- executeFrom ----

  const GUARD_ERROR := "workflow exceeded max steps (cycle?)"

  function CompletedRow(row: Run, n: nat): Run {
    row.(status := Completed, index := n)
  }

  function FailedRow(row: Run): Run {
    row.(status := Failed, error := GUARD_ERROR)
  }

  function PausedRow(row: Run, step: Step, next: nat, now: int): Run {
    row.(resumeAt := WakeAt(now + step.delaySeconds * SECOND), index := next)
  }

  function EmptyRow(): Run {
    Run("", "", "", "", map[], Running, 0, NoWake, "")
  }

  function VerdictOf(env: Env, ev: Event): Verdict {
    (condition: string) => Condition.Holds(env.formats, condition, ev.payload)
  }

  function Concluded(tx: Tx, run: nat, n: nat, faults: seq<Fault>): Result {
    UpdateRun(tx, faults, run, CompletedRow(RowOf(tx, run, EmptyRow()), n))
  }

  function Tripped(tx: Tx, run: nat, faults: seq<Fault>): Result {
    UpdateRun(tx, faults, run, FailedRow(RowOf(tx, run, EmptyRow())))
  }

  // One step: whether the pass goes on, and the result so far.
  datatype Stride = Stride(more: bool, result: Result)

  function Strode(tx: Tx, ev: Event, step: Step, node: Node, run: nat, env: Env): Stride {
    match node.mark
    case Channel => Stride(true, Dispatched(tx, ev, step, run, env.faults))
    case Delay =>
      var row := PausedRow(RowOf(tx, run, EmptyRow()), step, node.next, env.now);
      Stride(false, UpdateRun(tx, env.faults, run, row))
    case Plain => Stride(true, Result(true, tx))
  }

  function Executed(tx: Tx, ev: Event, steps: seq<Step>, flow: Flow, run: nat, i: nat, visited: nat, env: Env): Result
    requires |flow| == |steps|
    decreases MaxIterations(flow) + 1 - visited
  {
    if i >= |flow| then Concluded(tx, run, |flow|, env.faults)
    else if visited > MaxIterations(flow) then Tripped(tx, run, env.faults)
    else
      var s := Strode(tx, ev, steps[i], flow[i], run, env);
      if s.more && s.result.ok then Executed(s.result.tx, ev, steps, flow, run, flow[i].next, visited + 1, env)
      else s.result
  }

  lemma ExecutedStep(
    tx: Tx, ev: Event, steps: seq<Step>, flow: Flow, run: nat, i: nat, visited: nat, env: Env, st: Stride
  )
    requires |flow| == |steps| && i < |flow| && visited <= MaxIterations(flow)
    requires st == Strode(tx, ev, steps[i], flow[i], run, env)
    ensures Executed(tx, ev, steps, flow, run, i, visited, env) ==
            if st.more && st.result.ok then Executed(st.result.tx, ev, steps, flow, run, flow[i].next, visited + 1, env)
            else st.result
  {
  }

  function ExecutedFrom(tx: Tx, ev: Event, steps: seq<Step>, run: nat, start: int, env: Env): Result {
    Executed(tx, ev, steps, FlowOf(steps, VerdictOf(env, ev)), run, ClampStart(start), 0, env)
  }

  // ---- ProcessEvent and Resume ----

  predicate Active(s: Store, id: string, ev: Event) {
    && id in s.workflows && s.workflows[id].tenant == ev.tenant && s.workflows[id].trigger == ev.name
    && s.workflows[id].active
  }

  // The lookup returns some active match whenever there is one.
  ghost predicate PickOk(s: Store, ev: Event, pick: string) {
    (exists id :: Active(s, id, ev)) ==> Active(s, pick, ev)
  }

  function NewRow(ev: Event, workflow: string): Run {
    Run(ev.tenant, workflow, ev.subscriber, ev.name, ev.payload, Running, 0, NoWake, "")
  }

  function Started(s: Store, ev: Event, workflow: string): Store {
    s.(runs := s.runs[s.nextId := NewRow(ev, workflow)], nextId := s.nextId + 1)
  }

  function Created(tx: Tx, ev: Event, workflow: string): Tx {
    tx.(store := Started(tx.store, ev, workflow))
  }

  function Processed(tx: Tx, ev: Event, env: Env): Result {
    var tx1 := Statement(tx, env.faults, true);
    if tx1.aborted || !Active(tx1.store, env.pick, ev) then Result(true, tx1)
    else if !tx1.store.workflows[env.pick].readable then Result(false, tx1)
    else
      var tx2 := Statement(tx1, env.faults, true);
      if tx2.aborted then Result(false, tx2)
      else
        var run := tx2.store.nextId;
        ExecutedFrom(Created(tx2, ev, env.pick), ev, tx2.store.workflows[env.pick].steps, run, 0, env)
  }

  predicate Resumable(s: Store, run: nat) {
    run in s.runs && s.runs[run].status == Running && s.runs[run].workflow in s.workflows
  }

  function EventOf(s: Store, run: nat): Event
    requires run in s.runs
  {
    var r := s.runs[run];
    Event(r.tenant, r.subscriber, r.trigger, r.payload, OfRun(run))
  }

  function StepsOf(s: Store, run: nat): seq<Step>
    requires Resumable(s, run)
  {
    s.workflows[s.runs[run].workflow].steps
  }

  predicate Readable(s: Store, run: nat)
    requires Resumable(s, run)
  {
    s.workflows[s.runs[run].workflow].readable
  }

  // Only the status is checked; any failure to find the row means there is nothing to do.
  function Resumed(tx: Tx, run: nat, env: Env): Result {
    var tx1 := Statement(tx, env.faults, true);
    if tx1.aborted || !Resumable(tx1.store, run) then Result(true, tx1)
    else if !Readable(tx1.store, run) then Result(false, tx1)
    else ExecutedFrom(tx1, EventOf(tx1.store, run), StepsOf(tx1.store, run), run, tx1.store.runs[run].index, env)
  }

  // ---- handle: one tenant transaction ----

  // Rolling back restores the tables but neither un-publishes jobs nor reuses ids.
  function RolledBack(before: Store, after: Store): Store {
    before.(nextId := after.nextId, jobs := after.jobs)
  }

  datatype Handling = Handling(ok: bool, committed: bool, store: Store)

  function BeginTx(s: Store, faults: seq<Fault>): Tx {
    Statement(Statement(Transaction(s, false, 0), faults, true), faults, true)
  }

  function Handled(s: Store, ev: Event, env: Env): Handling {
    var tx := BeginTx(s, env.faults);
    if tx.aborted then Handling(false, false, s)
    else
      var r := if ev.run.OfRun? then Resumed(tx, ev.run.id, env) else Processed(tx, ev, env);
      var committed := r.ok && Commits(r.tx.aborted, env.commit);
      var after := if committed then r.tx.store else RolledBack(s, r.tx.store);
      Handling(committed && env.commit == NoFault, committed, after)
  }

  // ---- The engine as it runs ----

  class WorkflowEngine {
    var workflows: map<string, Definition>
    var matrix: Preferences.Matrix
    var runs: map<nat, Run>
    var notifications: map<nat, Notification>
    var nextId: nat
    var jobs: seq<Job>
    var aborted: bool
    var used: nat

    constructor (s: Store)
      ensures Tables() == s
    {
      workflows, matrix, runs := s.workflows, s.matrix, s.runs;
      notifications, nextId, jobs := s.notifications, s.nextId, s.jobs;
      aborted, used := false, 0;
    }

    function Tables(): Store
      reads this
    {
      Store(workflows, matrix, runs, notifications, nextId, jobs)
    }

    function State(): Tx
      reads this
    {
      Transaction(Tables(), aborted, used)
    }

    method Execute(faults: seq<Fault>, allowed: bool) returns (ok: bool)
      modifies this`aborted, this`used
      ensures State() == Statement(old(State()), faults, allowed) && ok == !aborted
    {
      aborted := aborted || !allowed || !Succeeds(faults, used);
      used := used + 1;
      ok := !aborted;
    }

    method SaveRun(faults: seq<Fault>, id: nat, row: Run) returns (ok: bool)
      modifies this`aborted, this`used, this`runs
      ensures Result(ok, State()) == UpdateRun(old(State()), faults, id, row)
    {
      ok := Execute(faults, true);
      if ok && id in runs {
        runs := runs[id := row];
      }
    }

    method FailRun(run: nat, faults: seq<Fault>) returns (ok: bool)
      modifies this`aborted, this`used, this`runs
      ensures Result(ok, State()) == Tripped(old(State()), run, faults)
    {
      ok := SaveRun(faults, run, FailedRow(RowOf(State(), run, EmptyRow())));
    }

    method CompleteRun(run: nat, n: nat, faults: seq<Fault>) returns (ok: bool)
      modifies this`aborted, this`used, this`runs
      ensures Result(ok, State()) == Concluded(old(State()), run, n, faults)
    {
      ok := SaveRun(faults, run, CompletedRow(RowOf(State(), run, EmptyRow()), n));
    }

    method DispatchChannel(ev: Event, step: Step, run: nat, faults: seq<Fault>) returns (ok: bool)
      modifies this`aborted, this`used, this`notifications, this`nextId, this`jobs
      ensures Result(ok, State()) == Dispatched(old(State()), ev, step, run, faults)
    {
      var category := Preferences.ALL;
      if "category" in ev.payload && ev.payload["category"].Str? && ev.payload["category"].s != "" {
        category := ev.payload["category"].s;
      }
      var optedIn := true;
      var read := Execute(faults, true);
      if read {
        optedIn := Preferences.OptedIn(matrix, Preferences.Key(ev.tenant, ev.subscriber, step.channel, category));
      }
      if !optedIn {
        return true;
      }
      ok := Enqueue(ev, step, run, faults);
    }

    method Enqueue(ev: Event, step: Step, run: nat, faults: seq<Fault>) returns (ok: bool)
      modifies this`aborted, this`used, this`notifications, this`nextId, this`jobs
      ensures Result(ok, State()) == Enqueued(old(State()), ev, step, run, faults)
    {
      ok := Execute(faults, Insertable(ev, step.channel));
      if !ok {
        return;
      }
      var id := nextId;
      notifications := notifications[id := NotificationFor(ev, step, run)];
      nextId := nextId + 1;
      var fault := FaultAt(faults, used);
      used := used + 1;
      if fault != Rejected {
        jobs := jobs + [JobFor(ev, step, id)];
      }
      ok := fault == NoFault;
    }

    // The switch on the step's type: performs the step and says where control goes next.
    method ExecuteStep(
      ev: Event, steps: seq<Step>, index: map<string, nat>, run: nat, i: nat, env: Env, ghost flow: Flow
    )
      returns (more: bool, ok: bool, next: nat)
      requires i < |steps| && IsIndex(index, steps) && flow == FlowOf(steps, VerdictOf(env, ev))
      modifies this`aborted, this`used, this`runs, this`notifications, this`nextId, this`jobs
      ensures next == flow[i].next
      ensures Stride(more, Result(ok, State())) == Strode(old(State()), ev, steps[i], flow[i], run, env)
    {
      var step := steps[i];
      assert flow[i] == NodeOf(steps, VerdictOf(env, ev), i);
      more, ok, next := true, true, i + 1;
      match step.kind {
        case ChannelStep =>
          ok := DispatchChannel(ev, step, run, env.faults);
          if step.nextStep in index {
            next := index[step.nextStep];
          }
        case DelayStep =>
          if step.nextStep in index {
            next := index[step.nextStep];
          }
          more := false;
          ok := SaveRun(env.faults, run, PausedRow(RowOf(State(), run, EmptyRow()), step, next, env.now));
        case ConditionStep =>
          var result := Condition.Holds(env.formats, step.condition, ev.payload);
          var target := if result then step.trueStep else step.falseStep;
          if target != "" {
            if target !in index {
              next := |steps|;
            } else {
              next := index[target];
            }
          }
        case OtherStep(_) =>
      }
    }

    // One turn of the loop: the guard, then the step. What remains to be executed is what remained before.
    method Advance(
      ev: Event, steps: seq<Step>, index: map<string, nat>, run: nat, i: nat, visited: nat, env: Env, ghost flow: Flow
    )
      returns (more: bool, ok: bool, next: nat)
      requires i < |steps| && IsIndex(index, steps) && flow == FlowOf(steps, VerdictOf(env, ev))
      modifies this`aborted, this`used, this`runs, this`notifications, this`nextId, this`jobs
      ensures more ==> visited <= MaxIterations(flow)
      ensures Executed(old(State()), ev, steps, flow, run, i, visited, env) ==
              if more then Executed(State(), ev, steps, flow, run, next, visited + 1, env) else Result(ok, State())
    {
      var maxIterations := |steps| * 2 + 10;
      if visited > maxIterations {
        ok := FailRun(run, env.faults);
        return false, ok, i;
      }
      more, ok, next := ExecuteStep(ev, steps, index, run, i, env, flow);
      ExecutedStep(old(State()), ev, steps, flow, run, i, visited, env, Stride(more, Result(ok, State())));
      more := more && ok;
    }

    // Walks an index pointer over the steps, with the id table for jumps and a counter against cycles.
    method ExecuteFrom(ev: Event, steps: seq<Step>, run: nat, start: int, env: Env) returns (ok: bool)
      modifies this
      ensures Result(ok, State()) == ExecutedFrom(old(State()), ev, steps, run, start, env)
    {
      var i: nat, visited: nat := if start < 0 then 0 else start, 0;
      var index := BuildIndex(steps);
      ghost var flow := FlowOf(steps, VerdictOf(env, ev));
      ghost var goal := Executed(State(), ev, steps, flow, run, i, 0, env);
      var more := true;
      ok := true;
      while more && i < |steps|
        invariant visited <= MaxIterations(flow) + 1
        invariant goal == if more then Executed(State(), ev, steps, flow, run, i, visited, env) else Result(ok, State())
        decreases MaxIterations(flow) + 1 - visited, more
      {
        more, ok, i := Advance(ev, steps, index, run, i, visited, env, flow);
        if more {
          visited := visited + 1;
        }
      }
      if more {
        ok := CompleteRun(run, |steps|, env.faults);
      }
    }

    method ProcessEvent(ev: Event, env: Env) returns (ok: bool)
      requires PickOk(Tables(), ev, env.pick)
      modifies this
      ensures Result(ok, State()) == Processed(old(State()), ev, env)
    {
      ok := Execute(env.faults, true);
      if !ok || !Active(Tables(), env.pick, ev) {
        return true;
      }
      if !workflows[env.pick].readable {
        return false;
      }
      ok := Execute(env.faults, true);
      if !ok {
        return;
      }
      var run := nextId;
      runs := runs[run := NewRow(ev, env.pick)];
      nextId := nextId + 1;
      ok := ExecuteFrom(ev, workflows[env.pick].steps, run, 0, env);
    }

    method Resume(run: nat, env: Env) returns (ok: bool)
      modifies this
      ensures Result(ok, State()) == Resumed(old(State()), run, env)
    {
      ok := Execute(env.faults, true);
      if !ok || !Resumable(Tables(), run) {
        return true;
      }
      if !Readable(Tables(), run) {
        return false;
      }
      ok := ExecuteFrom(EventOf(Tables(), run), StepsOf(Tables(), run), run, runs[run].index, env);
    }

    // A message as it comes off the queue: true means it is acknowledged. One that does not decode is not.
    method Handle(message: Incoming<Event>, env: Env) returns (ok: bool)
      requires message.Decoded? && message.value.run.NoRun? ==> PickOk(Tables(), message.value, env.pick)
      modifies this
      ensures message.Garbled? ==> !ok && Tables() == old(Tables())
      ensures message.Decoded? ==> ok == Handled(old(Tables()), message.value, env).ok
      ensures message.Decoded? ==> Tables() == Handled(old(Tables()), message.value, env).store
    {
      match message
      case Garbled => ok := false;
      case Decoded(ev) => ok := HandleEvent(ev, env);
    }

    // Everything one event does, in one transaction.
    method HandleEvent(ev: Event, env: Env) returns (ok: bool)
      requires ev.run.NoRun? ==> PickOk(Tables(), ev, env.pick)
      modifies this
      ensures ok == Handled(old(Tables()), ev, env).ok
      ensures Tables() == Handled(old(Tables()), ev, env).store
    {
      var workflows0, matrix0, runs0, notifications0 := workflows, matrix, runs, notifications;
      aborted, used := false, 0;
      ok := Execute(env.faults, true);
      if !ok {
        return;
      }
      ok := Execute(env.faults, true);
      if !ok {
        return;
      }
      if ev.run.OfRun? {
        ok := Resume(ev.run.id, env);
      } else {
        ok := ProcessEvent(ev, env);
      }
      if !ok || !Commits(aborted, env.commit) {
        workflows, matrix, runs, notifications := workflows0, matrix0, runs0, notifications0;
        return false;
      }
      ok := env.commit == NoFault;
    }
  }
}
