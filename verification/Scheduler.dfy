// The scheduler's tick as it runs, and how long a due run can be kept waiting.
module Scheduler {
  import opened Faults
  import opened Walk
  import opened Workflow
  import opened Engine
  import opened RunSemantics
  import opened Wakeup
  import opened Tokens

  // ---- The due query ----

  method Earliest(s: Store, due: set<nat>) returns (run: nat)
    requires due != {} && forall q :: q in due ==> q in s.runs && s.runs[q].resumeAt.WakeAt?
    ensures run in due && forall q :: q in due ==> s.runs[run].resumeAt.t <= s.runs[q].resumeAt.t
  {
    run :| run in due;
    var rest := due - {run};
    while rest != {}
      invariant run in due && rest <= due
      invariant forall q :: q in due - rest ==> s.runs[run].resumeAt.t <= s.runs[q].resumeAt.t
      decreases rest
    {
      var q :| q in rest;
      if s.runs[q].resumeAt.t < s.runs[run].resumeAt.t {
        run := q;
      }
      rest := rest - {q};
    }
  }

  ghost predicate HasComeDue(s: Store, tenant: string, now: int, run: nat) {
    && run in s.runs && s.runs[run].tenant == tenant && s.runs[run].status == Running
    && exists t :: s.runs[run].resumeAt == WakeAt(t) && t <= now
  }

  // The tenant's due runs in order of resume time, up to the limit.
  method DueRuns(s: Store, tenant: string, now: int) returns (batch: seq<nat>)
    ensures IsDueBatch(s, tenant, now, batch)
    // In the query's own terms: the tenant's running runs whose time has come, in order, the first fifty.
    ensures |batch| <= 50
    ensures forall k :: 0 <= k < |batch| ==> HasComeDue(s, tenant, now, batch[k])
    ensures forall j, k :: 0 <= j < k < |batch| ==> s.runs[batch[j]].resumeAt.t <= s.runs[batch[k]].resumeAt.t
    ensures forall run :: HasComeDue(s, tenant, now, run) && run !in batch ==>
              |batch| == 50 && s.runs[batch[49]].resumeAt.t <= s.runs[run].resumeAt.t
  {
    batch := [];
    var rest := set r | r in s.runs && IsDue(s, tenant, now, r);
    while rest != {} && |batch| < BATCH
      invariant |batch| <= BATCH
      invariant forall q :: q in rest ==> IsDue(s, tenant, now, q) && q !in batch
      invariant forall q :: IsDue(s, tenant, now, q) ==> q in batch || q in rest
      invariant forall k :: 0 <= k < |batch| ==> IsDue(s, tenant, now, batch[k])
      invariant forall j, k :: 0 <= j < k < |batch| ==> batch[j] != batch[k]
      invariant forall j, k :: 0 <= j < k < |batch| ==> s.runs[batch[j]].resumeAt.t <= s.runs[batch[k]].resumeAt.t
      invariant forall k, q :: 0 <= k < |batch| && q in rest ==> s.runs[batch[k]].resumeAt.t <= s.runs[q].resumeAt.t
      decreases rest
    {
      var run := Earliest(s, rest);
      batch := batch + [run];
      rest := rest - {run};
    }
  }

  // ---- The tick ----

  // What is left of the batch, after what was sent and rejected before it, adds up to the whole.
  ghost predicate AddsUpTo(
    tx: Tx, tenant: string, rest: seq<nat>, faults: seq<Fault>, sent: seq<Envelope>, rejected: set<nat>, whole: Ticked
  ) {
    var t := TickRuns(tx, tenant, rest, faults);
    whole == Ticked(t.tx, sent + t.sent, rejected + t.rejected)
  }

  lemma {:induction false} TurnLeads(
    tx: Tx, tenant: string, batch: seq<nat>, k: nat, faults: seq<Fault>, sent: seq<Envelope>, rejected: set<nat>,
    whole: Ticked
  )
    requires k < |batch| && AddsUpTo(tx, tenant, batch[k..], faults, sent, rejected, whole)
    ensures var turn := TurnOf(tx, tenant, batch[k], faults);
            AddsUpTo(turn.tx, tenant, batch[k + 1..], faults, sent + turn.sent, rejected + turn.rejected, whole)
  {
    assert batch[k..][1..] == batch[k + 1..];
  }

  // A tick spelled out on the parts of the system.
  lemma {:induction false} TickEffect(
    s: System, at: int, tenant: string, batch: seq<nat>, faults: seq<Fault>, commit: Fault
  )
    ensures var t := TickBody(s.store, tenant, batch, faults);
            var committed := Commits(t.tx.aborted, commit);
            Next(s, Tick(at, tenant, batch, faults, commit)) ==
            System(if committed then t.tx.store else s.store, s.events + multiset(t.sent), at, s.due,
                   s.lost + if committed then t.rejected else {})
  {
  }

  // The actions are ticks of the first tenants, one each, at the given times.
  ghost predicate AreTicks(actions: seq<Action>, tenants: seq<string>, times: seq<int>) {
    && |actions| <= |tenants| == |times|
    && forall k | 0 <= k < |actions| :: actions[k].Tick? && actions[k].tenant == tenants[k] && actions[k].at == times[k]
  }

  lemma {:induction false} TicksExtend(actions: seq<Action>, tenants: seq<string>, times: seq<int>, a: Action)
    requires AreTicks(actions, tenants, times) && |actions| < |tenants|
    requires a.Tick? && a.tenant == tenants[|actions|] && a.at == times[|actions|]
    ensures AreTicks(actions + [a], tenants, times)
  {
  }

  // The scheduler with the tables and the queue it works on.
  class Ticker {
    var store: Store
    var events: multiset<Envelope>
    var clock: int
    var aborted: bool
    var used: nat
    ghost var due: map<nat, int>
    ghost var lost: set<nat>

    ghost function Whole(): System
      reads this
    {
      System(store, events, clock, due, lost)
    }

    function State(): Tx
      reads this
    {
      Transaction(store, aborted, used)
    }

    method Execute(faults: seq<Fault>) returns (ok: bool)
      modifies this`aborted, this`used
      ensures State() == Statement(old(State()), faults, true) && ok == !aborted
    {
      aborted := aborted || !Succeeds(faults, used);
      used := used + 1;
      ok := !aborted;
    }

    // One run of the batch: clear resume_at, then publish; a failure of either only moves on to the next run.
    method Wake(tenant: string, run: nat, faults: seq<Fault>) returns (ghost turn: Ticked)
      modifies this`store, this`events, this`aborted, this`used
      ensures turn == TurnOf(old(State()), tenant, run, faults)
      ensures State() == turn.tx && events == old(events) + multiset(turn.sent)
    {
      turn := TurnOf(State(), tenant, run, faults);
      var ok := Execute(faults);
      if !ok {
        return;
      }
      if run in store.runs {
        store := store.(runs := store.runs[run := store.runs[run].(resumeAt := NoWake)]);
      }
      var published := FaultAt(faults, used) != Rejected;
      used := used + 1;
      if published {
        events := events + multiset{WakeUp(tenant, run)};
      }
    }

    // The loop over the batch, inside the tenant's transaction.
    method WakeAll(tenant: string, batch: seq<nat>, faults: seq<Fault>) returns (ghost rejected: set<nat>)
      modifies this`store, this`events, this`aborted, this`used
      ensures var t := TickRuns(old(State()), tenant, batch, faults);
              State() == t.tx && events == old(events) + multiset(t.sent) && rejected == t.rejected
    {
      ghost var whole := TickRuns(State(), tenant, batch, faults);
      ghost var sent: seq<Envelope> := [];
      rejected := {};
      for k := 0 to |batch|
        invariant AddsUpTo(State(), tenant, batch[k..], faults, sent, rejected, whole)
        invariant events == old(events) + multiset(sent)
      {
        TurnLeads(State(), tenant, batch, k, faults, sent, rejected, whole);
        ghost var turn := Wake(tenant, batch[k], faults);
        sent := sent + turn.sent;
        rejected := rejected + turn.rejected;
      }
    }

    // Begin, set the tenant, query; then the loop.
    method Attempt(tenant: string, batch: seq<nat>, faults: seq<Fault>) returns (ghost rejected: set<nat>)
      modifies this`store, this`events, this`aborted, this`used
      ensures var t := TickBody(old(store), tenant, batch, faults);
              State() == t.tx && events == old(events) + multiset(t.sent) && rejected == t.rejected
    {
      aborted, used := false, 0;
      var begun := Execute(faults);
      var scoped := Execute(faults);
      assert State() == BeginTx(old(store), faults);
      var read := Execute(faults);
      if read {
        rejected := WakeAll(tenant, batch, faults);
      } else {
        rejected := {};
      }
    }

    // One transaction: commit, or restore the tables and leave what was published.
    method RunInTenant(at: int, tenant: string, batch: seq<nat>, faults: seq<Fault>, commit: Fault)
      modifies this
      ensures Whole() == Next(old(Whole()), Tick(at, tenant, batch, faults, commit))
    {
      TickEffect(Whole(), at, tenant, batch, faults, commit);
      var saved := store;
      ghost var rejected := Attempt(tenant, batch, faults);
      clock := at;
      if !Commits(aborted, commit) {
        store, rejected := saved, {};
      }
      lost := lost + rejected;
    }

    // One tenant's share of a tick is one step of the system, whatever fails.
    method TickTenant(at: int, tenant: string, faults: seq<Fault>, commit: Fault) returns (ghost batch: seq<nat>)
      requires clock < at
      modifies this
      ensures Enabled(old(Whole()), Tick(at, tenant, batch, faults, commit))
      ensures Whole() == Next(old(Whole()), Tick(at, tenant, batch, faults, commit))
    {
      var runs := DueRuns(store, tenant, at);
      batch := runs;
      RunInTenant(at, tenant, runs, faults, commit);
    }

    // A whole tick: every tenant in turn, each in a transaction of its own; a tenant's failure does not stop the rest.
    method TickAll(listed: bool, tenants: seq<string>, times: seq<int>, faults: seq<seq<Fault>>, commits: seq<Fault>)
      returns (ghost actions: seq<Action>)
      requires |tenants| == |times| == |faults| == |commits|
      requires forall k :: 0 <= k < |times| ==> clock < times[k]
      requires forall j, k :: 0 <= j < k < |times| ==> times[j] < times[k]
      modifies this
      ensures |actions| == if listed then |tenants| else 0
      ensures AreTicks(actions, tenants, times)
      ensures Legal(old(Whole()), actions) && Whole() == RunAll(old(Whole()), actions)
    {
      actions := [];
      if !listed {
        return;
      }
      for k := 0 to |tenants|
        invariant |actions| == k && (k > 0 ==> clock == times[k - 1]) && (k == 0 ==> clock == old(clock))
        invariant AreTicks(actions, tenants, times)
        invariant Legal(old(Whole()), actions) && Whole() == RunAll(old(Whole()), actions)
      {
        ghost var batch := TickTenant(times[k], tenants[k], faults[k], commits[k]);
        ghost var a := Tick(times[k], tenants[k], batch, faults[k], commits[k]);
        OneMore(old(Whole()), actions, a);
        TicksExtend(actions, tenants, times, a);
        actions := actions + [a];
      }
    }
  }

  // ---- How long a due run waits ----

  ghost predicate NoneNegative(steps: seq<Step>) {
    forall k :: 0 <= k < |steps| ==> steps[k].delaySeconds >= 0
  }

  ghost predicate DelaysOk(s: Store) {
    forall w :: w in s.workflows ==> NoneNegative(s.workflows[w].steps)
  }

  ghost predicate Patient(a: Action) {
    a.Edit? ==> NoneNegative(a.definition.steps)
  }

  ghost predicate AllPatient(actions: seq<Action>) {
    forall k :: 0 <= k < |actions| ==> Patient(actions[k])
  }

  predicate IsRival(s: Store, tenant: string, time: int, r: nat, q: nat) {
    q != r && IsDue(s, tenant, time, q)
  }

  // The tenant's other waiting runs that are due no later than the given time.
  function Rivals(s: Store, tenant: string, time: int, r: nat): set<nat> {
    set q | q in s.runs && IsRival(s, tenant, time, r, q)
  }

  // The run is due since the given time, and no wake-up of it is under way.
  ghost predicate Waits(s: System, r: nat, tenant: string, time: int) {
    && r in s.store.runs && s.store.runs[r].tenant == tenant && s.store.runs[r].status == Running
    && s.store.runs[r].resumeAt == WakeAt(time) && time <= s.clock
    && forall m :: m in s.events ==> m.event.run != OfRun(r)
  }

  // The step takes the run up: its wake-up is published, or is given up for good.
  ghost predicate TakesUp(s: System, a: Action, r: nat) {
    a.Tick? &&
    var t := TickBody(s.store, a.tenant, a.batch, a.faults);
    WakeUp(a.tenant, r) in t.sent || (Commits(t.tx.aborted, a.commit) && r in t.rejected)
  }

  predicate CommittedTick(s: System, a: Action, tenant: string) {
    a.Tick? && a.tenant == tenant && Commits(TickBody(s.store, a.tenant, a.batch, a.faults).tx.aborted, a.commit)
  }

  function CommittedTicks(s: System, actions: seq<Action>, tenant: string): nat {
    if actions == [] then 0
    else
      var n := |actions| - 1;
      CommittedTicks(s, actions[..n], tenant)
      + if CommittedTick(RunAll(s, actions[..n]), actions[n], tenant) then 1 else 0
  }

  // After a pass a run no longer runs, or waits for a time not before the pass.
  lemma {:induction false} PassWaitsAhead(row: Run, ev: Event, steps: seq<Step>, start: int, env: Env)
    requires NoneNegative(steps)
    ensures var row' := RowAfter(row, steps, PassOutcome(ev, steps, start, env), env.now);
            row'.status != Running || (row'.resumeAt.WakeAt? && row'.resumeAt.t >= env.now)
  {
    SegmentPauseInside(FlowOf(steps, VerdictOf(env, ev)), ClampStart(start), 0);
  }

  lemma {:induction false} MovedIsNoRival(s: Store, moved: nat, row: Run, tenant: string, time: int, r: nat)
    requires row.status != Running || (row.resumeAt.WakeAt? && row.resumeAt.t > time)
    ensures Rivals(s.(runs := s.runs[moved := row]), tenant, time, r) <= Rivals(s, tenant, time, r)
  {
  }

  lemma {:induction false} DeliverAddsNoRival(s: System, a: Action, r: nat, tenant: string, time: int)
    requires Orderly(s.store) && DelaysOk(s.store) && Waits(s, r, tenant, time) && a.Deliver? && Enabled(s, a)
    ensures Rivals(Next(s, a).store, tenant, time, r) <= Rivals(s.store, tenant, time, r)
  {
    var ev, env := a.message.event, a.env;
    HandledRuns(s.store, ev, env);
    if Handled(s.store, ev, env).committed {
      if ev.run.OfRun? {
        if Resumable(s.store, ev.run.id) {
          var row := s.store.runs[ev.run.id];
          PassWaitsAhead(row, EventOf(s.store, ev.run.id), StepsOf(s.store, ev.run.id), row.index, env);
          MovedIsNoRival(s.store, ev.run.id, ResumedRow(s.store, ev.run.id, env), tenant, time, r);
        }
      } else if Active(s.store, env.pick, ev) {
        PassWaitsAhead(NewRow(ev, env.pick), ev, s.store.workflows[env.pick].steps, 0, env);
        MovedIsNoRival(s.store, s.store.nextId, StartedRow(s.store, ev, env), tenant, time, r);
      }
    }
  }

  lemma {:induction false} DeliverLeavesWaiting(s: System, a: Action, r: nat, tenant: string, time: int)
    requires Orderly(s.store) && Waits(s, r, tenant, time) && a.Deliver? && Enabled(s, a)
    ensures Waits(Next(s, a), r, tenant, time)
  {
    HandledRuns(s.store, a.message.event, a.env);
  }

  lemma {:induction false} OtherTick(s: System, a: Action, r: nat, tenant: string, time: int)
    requires Waits(s, r, tenant, time) && a.Tick? && Enabled(s, a)
    requires !TakesUp(s, a, r) && !CommittedTick(s, a, tenant)
    ensures Waits(Next(s, a), r, tenant, time)
    ensures Rivals(Next(s, a).store, tenant, time, r) <= Rivals(s.store, tenant, time, r)
  {
    NoWakeUpSent(s, a, r);
    if Commits(TickBody(s.store, a.tenant, a.batch, a.faults).tx.aborted, a.commit) {
      TickExact(s, a);
      assert r !in a.batch;
      ClearingAddsNoRival(s.store, Next(s, a).store, a.batch, tenant, time, r);
    }
  }

  lemma {:induction false} ClearingAddsNoRival(s: Store, t: Store, batch: seq<nat>, tenant: string, time: int, r: nat)
    requires ClearedExactly(s.runs, t.runs, batch)
    ensures Rivals(t, tenant, time, r) <= Rivals(s, tenant, time, r)
    ensures forall k :: 0 <= k < |batch| ==> batch[k] !in Rivals(t, tenant, time, r)
  {
  }

  lemma {:induction false} NoWakeUpSent(s: System, a: Action, r: nat)
    requires a.Tick? && !TakesUp(s, a, r)
    ensures forall m :: m in TickBody(s.store, a.tenant, a.batch, a.faults).sent ==> m.event.run != OfRun(r)
  {
    var tx := Statement(BeginTx(s.store, a.faults), a.faults, true);
    forall m | m in TickBody(s.store, a.tenant, a.batch, a.faults).sent ensures m.event.run != OfRun(r) {
      TickSends(tx, a.tenant, a.batch, a.faults, m);
    }
  }

  // A committed tick that leaves the run out takes a full batch of its rivals instead.
  lemma {:induction false} FullBatchOfRivals(s: System, a: Action, r: nat, tenant: string, time: int)
    requires Waits(s, r, tenant, time) && Enabled(s, a)
    requires !TakesUp(s, a, r) && CommittedTick(s, a, tenant)
    ensures r !in a.batch && |a.batch| == BATCH
    ensures forall k :: 0 <= k < |a.batch| ==> a.batch[k] in Rivals(s.store, tenant, time, r)
  {
    TickExact(s, a);
    var t := TickBody(s.store, tenant, a.batch, a.faults);
    assert multiset(t.sent)[WakeUp(tenant, r)] == if r in a.batch && r !in t.rejected then 1 else 0;
    assert IsDue(s.store, tenant, a.at, r);
    forall k | 0 <= k < |a.batch| ensures a.batch[k] in Rivals(s.store, tenant, time, r) {
      assert IsDue(s.store, tenant, a.at, a.batch[k]);
    }
  }

  lemma {:induction false} RivalsCleared(s: System, a: Action, r: nat, tenant: string, time: int)
    requires Waits(s, r, tenant, time) && Enabled(s, a)
    requires !TakesUp(s, a, r) && CommittedTick(s, a, tenant)
    ensures Waits(Next(s, a), r, tenant, time)
    ensures var after := Rivals(Next(s, a).store, tenant, time, r);
            after <= Rivals(s.store, tenant, time, r) && forall k :: 0 <= k < |a.batch| ==> a.batch[k] !in after
  {
    FullBatchOfRivals(s, a, r, tenant, time);
    NoWakeUpSent(s, a, r);
    TickExact(s, a);
    ClearingAddsNoRival(s.store, Next(s, a).store, a.batch, tenant, time, r);
  }

  lemma {:induction false} TickShrinksQueue(s: System, a: Action, r: nat, tenant: string, time: int)
    requires Waits(s, r, tenant, time) && Enabled(s, a)
    requires !TakesUp(s, a, r) && CommittedTick(s, a, tenant)
    ensures Waits(Next(s, a), r, tenant, time)
    ensures |Rivals(Next(s, a).store, tenant, time, r)| + BATCH <= |Rivals(s.store, tenant, time, r)|
  {
    FullBatchOfRivals(s, a, r, tenant, time);
    RivalsCleared(s, a, r, tenant, time);
    TakenOut(Rivals(s.store, tenant, time, r), Rivals(Next(s, a).store, tenant, time, r), a.batch);
  }

  lemma {:induction false} TakenOut(before: set<nat>, after: set<nat>, batch: seq<nat>)
    requires Distinct(batch) && after <= before
    requires forall k :: 0 <= k < |batch| ==> batch[k] in before && batch[k] !in after
    ensures |after| + |batch| <= |before|
  {
    DistinctSize(batch);
    assert Elements(batch) !! after;
    SubsetSize(Elements(batch) + after, before);
  }

  lemma {:induction false} QueueMoves(s: System, a: Action, r: nat, tenant: string, time: int)
    requires Coherent(s) && DelaysOk(s.store) && Waits(s, r, tenant, time) && Enabled(s, a) && Patient(a)
    requires !TakesUp(s, a, r)
    ensures DelaysOk(Next(s, a).store) && Waits(Next(s, a), r, tenant, time)
    ensures |Rivals(Next(s, a).store, tenant, time, r)| + (if CommittedTick(s, a, tenant) then BATCH else 0)
            <= |Rivals(s.store, tenant, time, r)|
  {
    DelaysStay(s, a);
    if CommittedTick(s, a, tenant) {
      TickShrinksQueue(s, a, r, tenant, time);
    } else {
      if a.Tick? {
        OtherTick(s, a, r, tenant, time);
      } else if a.Deliver? {
        DeliverAddsNoRival(s, a, r, tenant, time);
        DeliverLeavesWaiting(s, a, r, tenant, time);
      }
      SubsetSize(Rivals(Next(s, a).store, tenant, time, r), Rivals(s.store, tenant, time, r));
    }
  }

  lemma {:induction false} DelaysStay(s: System, a: Action)
    requires DelaysOk(s.store) && Patient(a)
    ensures DelaysOk(Next(s, a).store)
  {
    match a
    case Deliver(_, m, env, _) => HandledRuns(s.store, m.event, env);
    case Tick(_, _, _, _, _) => TickFrame(s, a);
    case _ =>
  }

  ghost predicate TakenUpWithin(s: System, actions: seq<Action>, r: nat) {
    exists j :: 0 <= j < |actions| && TakesUp(RunAll(s, actions[..j]), actions[j], r)
  }

  lemma {:induction false} QueueDrains(s: System, actions: seq<Action>, r: nat, tenant: string, time: int)
    requires Coherent(s) && DelaysOk(s.store) && Waits(s, r, tenant, time)
    requires Legal(s, actions) && AllPatient(actions) && !TakenUpWithin(s, actions, r)
    ensures Coherent(RunAll(s, actions)) && DelaysOk(RunAll(s, actions).store)
    ensures Waits(RunAll(s, actions), r, tenant, time)
    ensures |Rivals(RunAll(s, actions).store, tenant, time, r)| + BATCH * CommittedTicks(s, actions, tenant)
            <= |Rivals(s.store, tenant, time, r)|
  {
    if actions != [] {
      var n := |actions| - 1;
      forall j | 0 <= j < n ensures !TakesUp(RunAll(s, actions[..n][..j]), actions[..n][j], r) {
        assert actions[..n][..j] == actions[..j];
      }
      QueueDrains(s, actions[..n], r, tenant, time);
      var s1 := RunAll(s, actions[..n]);
      StepKeepsCoherence(s1, actions[n]);
      QueueMoves(s1, actions[n], r, tenant, time);
    }
  }

  // With k of its tenant's runs due at or before its time, a due run is taken up within k / 50 + 1 committed ticks of
  // that tenant, whatever else happens, succeeds or fails, and however many runs any tenant pauses meanwhile.
  lemma {:induction false} SchedulerBound(s: System, actions: seq<Action>, r: nat, tenant: string, time: int)
    requires Coherent(s) && DelaysOk(s.store) && Waits(s, r, tenant, time)
    requires Legal(s, actions) && AllPatient(actions)
    requires CommittedTicks(s, actions, tenant) >= |Rivals(s.store, tenant, time, r)| / 50 + 1
    ensures TakenUpWithin(s, actions, r)
  {
    if !TakenUpWithin(s, actions, r) {
      QueueDrains(s, actions, r, tenant, time);
    }
  }

  lemma {:induction false} DelaysAlwaysOk(actions: seq<Action>)
    requires AllPatient(actions)
    ensures DelaysOk(RunAll(START, actions).store)
  {
    if actions != [] {
      DelaysAlwaysOk(actions[..|actions| - 1]);
      DelaysStay(RunAll(START, actions[..|actions| - 1]), actions[|actions| - 1]);
    }
  }

  // A due run of its tenant, with k rivals, followed by more than k / 50 committed ticks of that tenant.
  ghost predicate TicksEnough(s: System, later: seq<Action>, r: nat, tenant: string) {
    && IsDue(s.store, tenant, s.clock, r)
    && CommittedTicks(s, later, tenant) >= |Rivals(s.store, tenant, s.store.runs[r].resumeAt.t, r)| / 50 + 1
  }

  // The same for every due run of every state that sound steps reach.
  lemma {:induction false} EveryDueRunIsTakenUp(past: seq<Action>, later: seq<Action>, r: nat, tenant: string)
    requires Legal(START, past) && AllSound(START, past) && AllPatient(past)
    requires Legal(RunAll(START, past), later) && AllPatient(later)
    requires TicksEnough(RunAll(START, past), later, r, tenant)
    ensures TakenUpWithin(RunAll(START, past), later, r)
  {
    var s := RunAll(START, past);
    TokenInvariant(past);
    AlwaysCoherent(past);
    DelaysAlwaysOk(past);
    assert TokenOk(s, r);
    forall m | m in s.events ensures m.event.run == OfRun(r) ==> m == WakeUp(tenant, r) {
    }
    SchedulerBound(s, later, r, tenant, s.store.runs[r].resumeAt.t);
  }
}
