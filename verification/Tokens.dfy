// A running run is either waiting or has one wake-up under way: the invariant, exactly the steps that keep it,
// and what the others do.
module Tokens {
  import opened Faults
  import opened Walk
  import opened Workflow
  import opened Engine
  import opened RunSemantics
  import opened Transparency
  import opened Wakeup
  import Condition

  // ---- Sound steps ----

  // A resume message whose transaction commits is acknowledged, and a tick that publishes commits.
  ghost predicate Sound(s: System, a: Action) {
    match a
    case Deliver(_, m, env, _) => m.event.run.OfRun? && Handled(s.store, m.event, env).committed ==> Consumed(s, a)
    case Tick(_, tenant, batch, faults, commit) =>
      var t := TickBody(s.store, tenant, batch, faults);
      Commits(t.tx.aborted, commit) || t.sent == []
    case _ => true
  }

  ghost predicate AllSound(s: System, actions: seq<Action>) {
    if actions == [] then true
    else
      && AllSound(s, actions[..|actions| - 1])
      && Sound(RunAll(s, actions[..|actions| - 1]), actions[|actions| - 1])
  }

  // ---- What a tick does ----

  ghost predicate Distinct(batch: seq<nat>) {
    forall j, k :: 0 <= j < k < |batch| ==> batch[j] != batch[k]
  }

  // The rows of the batch, and no others, have their resume time cleared.
  ghost predicate ClearedExactly(before: map<nat, Run>, after: map<nat, Run>, batch: seq<nat>) {
    && after.Keys == before.Keys
    && forall r :: r in before ==> after[r] == (if r in batch then before[r].(resumeAt := NoWake) else before[r])
  }

  ghost predicate SentOnce(sent: seq<Envelope>, tenant: string, batch: seq<nat>, rejected: set<nat>) {
    forall r: nat :: multiset(sent)[WakeUp(tenant, r)] == (if r in batch && r !in rejected then 1 else 0)
  }

  lemma {:induction false} AbortSticks(tx: Tx, tenant: string, batch: seq<nat>, faults: seq<Fault>)
    requires tx.aborted
    ensures TickRuns(tx, tenant, batch, faults).tx.aborted
    decreases batch
  {
    if batch != [] {
      AbortSticks(TurnOf(tx, tenant, batch[0], faults).tx, tenant, batch[1..], faults);
    }
  }

  lemma {:induction false} OthersNotSent(tx: Tx, tenant: string, batch: seq<nat>, faults: seq<Fault>, r: nat)
    requires r !in batch
    ensures multiset(TickRuns(tx, tenant, batch, faults).sent)[WakeUp(tenant, r)] == 0
    ensures r !in TickRuns(tx, tenant, batch, faults).rejected
    decreases batch
  {
    if batch != [] {
      var tx1 := TurnOf(tx, tenant, batch[0], faults).tx;
      OthersNotSent(tx1, tenant, batch[1..], faults, r);
    }
  }

  // A tick whose statements all succeed clears its batch and publishes one wake-up for each run, save those whose
  // publish is rejected.
  lemma {:induction false} TickRunsExact(tx: Tx, tenant: string, batch: seq<nat>, faults: seq<Fault>)
    requires Distinct(batch) && forall k :: 0 <= k < |batch| ==> batch[k] in tx.store.runs
    requires !TickRuns(tx, tenant, batch, faults).tx.aborted
    ensures var t := TickRuns(tx, tenant, batch, faults);
            && ClearedExactly(tx.store.runs, t.tx.store.runs, batch)
            && SentOnce(t.sent, tenant, batch, t.rejected)
            && (forall r :: r in t.rejected ==> r in batch)
    decreases batch
  {
    if batch != [] {
      var turn := TurnOf(tx, tenant, batch[0], faults);
      if turn.tx.aborted {
        AbortSticks(turn.tx, tenant, batch[1..], faults);
      } else {
        assert batch[0] !in batch[1..];
        TickRunsExact(turn.tx, tenant, batch[1..], faults);
        OthersNotSent(turn.tx, tenant, batch[1..], faults, batch[0]);
        var rest := TickRuns(turn.tx, tenant, batch[1..], faults);
        ClearedHead(tx, batch, rest.tx.store.runs);
        SentHead(tenant, batch, turn, rest);
      }
    }
  }

  lemma {:induction false} SentHead(tenant: string, batch: seq<nat>, turn: Ticked, rest: Ticked)
    requires batch != [] && batch[0] !in batch[1..] && batch[0] !in rest.rejected
    requires turn in {Ticked(turn.tx, [WakeUp(tenant, batch[0])], {}), Ticked(turn.tx, [], {batch[0]})}
    requires SentOnce(rest.sent, tenant, batch[1..], rest.rejected)
    ensures SentOnce(turn.sent + rest.sent, tenant, batch, turn.rejected + rest.rejected)
  {
    var sent, rejected := turn.sent + rest.sent, turn.rejected + rest.rejected;
    forall r: nat ensures multiset(sent)[WakeUp(tenant, r)] == (if r in batch && r !in rejected then 1 else 0) {
      var m := WakeUp(tenant, r);
      assert r in batch <==> r == batch[0] || r in batch[1..];
      assert multiset(sent)[m] == multiset(turn.sent)[m] + multiset(rest.sent)[m];
    }
  }

  lemma {:induction false} ClearedHead(tx: Tx, batch: seq<nat>, after: map<nat, Run>)
    requires batch != [] && batch[0] in tx.store.runs && batch[0] !in batch[1..]
    requires ClearedExactly(Cleared(tx, batch[0]).store.runs, after, batch[1..])
    ensures ClearedExactly(tx.store.runs, after, batch)
  {
    assert forall r :: r in batch <==> r == batch[0] || r in batch[1..];
  }

  // The same, for a whole committed tick.
  lemma {:induction false} TickExact(s: System, a: Action)
    requires a.Tick? && Enabled(s, a)
    requires var t := TickBody(s.store, a.tenant, a.batch, a.faults); !t.tx.aborted
    ensures var t := TickBody(s.store, a.tenant, a.batch, a.faults);
            && ClearedExactly(s.store.runs, t.tx.store.runs, a.batch)
            && SentOnce(t.sent, a.tenant, a.batch, t.rejected)
            && (forall r :: r in t.rejected ==> r in a.batch)
  {
    TickRunsExact(Statement(BeginTx(s.store, a.faults), a.faults, true), a.tenant, a.batch, a.faults);
  }

  // ---- The invariant ----

  // A waiting row or a wake-up in flight counts one; a running run has exactly one unless a publish of its wake-up
  // was rejected, and any other run has none.
  ghost predicate TokenOk(s: System, r: nat)
    requires r in s.store.runs
  {
    var row := s.store.runs[r];
    && Pending(row) + InFlight(s, r) == (if row.status == Running && r !in s.lost then 1 else 0)
    && (r in s.lost ==> row.status == Running)
  }

  ghost predicate TokensOk(s: System) {
    && s.lost <= s.store.runs.Keys
    && (forall r :: r in s.store.runs ==> TokenOk(s, r))
  }

  // After a pass a run is running exactly if it is waiting.
  lemma {:induction false} RowTokens(row: Run, ev: Event, steps: seq<Step>, start: int, env: Env)
    requires row.status == Running && row.resumeAt == NoWake
    ensures var row' := RowAfter(row, steps, PassOutcome(ev, steps, start, env), env.now);
            Pending(row') == if row'.status == Running then 1 else 0
  {
    SegmentPauseInside(FlowOf(steps, VerdictOf(env, ev)), ClampStart(start), 0);
  }

  // Runs and their wake-ups are as before.
  ghost predicate SameTokens(s: System, t: System) {
    && t.store.runs == s.store.runs && t.lost == s.lost
    && forall r | r in s.store.runs :: InFlight(t, r) == InFlight(s, r)
  }

  lemma {:induction false} IdleKeepsTokens(s: System, t: System)
    requires TokensOk(s) && SameTokens(s, t)
    ensures TokensOk(t)
  {
    forall r | r in t.store.runs ensures TokenOk(t, r) {
      assert TokenOk(s, r);
    }
  }

  // One run has moved to a row that is running exactly if it waits, its wake-up, if any, having been consumed.
  ghost predicate MovedOne(s: System, t: System, run: nat, row: Run) {
    && t.store.runs == s.store.runs[run := row] && t.lost == s.lost
    && Pending(row) == (if row.status == Running then 1 else 0)
    && run !in s.lost && InFlight(t, run) == 0
    && forall r | r in s.store.runs && r != run :: InFlight(t, r) == InFlight(s, r)
  }

  lemma {:induction false} MoveKeepsTokens(s: System, t: System, run: nat, row: Run)
    requires TokensOk(s) && run in t.store.runs && MovedOne(s, t, run, row)
    ensures TokensOk(t)
  {
    forall r | r in t.store.runs ensures TokenOk(t, r) {
      if r != run {
        assert TokenOk(s, r);
      }
    }
  }

  // A delivery consumes its message or not, and does nothing else to the queue.
  lemma {:induction false} DeliveryEffect(s: System, a: Action)
    requires a.Deliver? && Enabled(s, a)
    ensures var t := Next(s, a);
            && t.store.runs == RunsAfter(s.store, a.message.event, a.env)
            && t.lost == s.lost && s.clock <= t.clock && t.due == s.due + ResumeTimes(t.store.runs)
            && t.events == if Consumed(s, a) then s.events - multiset{a.message} else s.events
  {
    HandledRuns(s.store, a.message.event, a.env);
  }

  // A resume message in flight is its run's only token, so its delivery finds the run running and not waiting.
  lemma {:induction false} ResumeFindsRun(s: System, a: Action)
    requires Coherent(s) && TokensOk(s) && Enabled(s, a) && a.Deliver? && a.message.event.run.OfRun?
    ensures var run := a.message.event.run.id;
            && Resumable(s.store, run) && s.store.runs[run].resumeAt == NoWake && run !in s.lost
            && a.message == WakeUp(s.store.runs[run].tenant, run) && InFlight(s, run) == 1
  {
    assert InFlight(s, a.message.event.run.id) >= 1;
    assert TokenOk(s, a.message.event.run.id);
  }

  lemma {:induction false} ResumeKeepsTokens(s: System, a: Action)
    requires Coherent(s) && TokensOk(s) && Enabled(s, a) && a.Deliver? && Consumed(s, a)
    requires a.message.event.run.OfRun?
    ensures TokensOk(Next(s, a))
  {
    var run := a.message.event.run.id;
    DeliveryEffect(s, a);
    ResumeFindsRun(s, a);
    var row := s.store.runs[run];
    RowTokens(row, EventOf(s.store, run), StepsOf(s.store, run), row.index, a.env);
    MoveKeepsTokens(s, Next(s, a), run, ResumedRow(s.store, run, a.env));
  }

  // If it commits and yet stays in the queue, the run has a token too many.
  lemma {:induction false} RedeliveryBreaksTokens(s: System, a: Action)
    requires Coherent(s) && TokensOk(s) && Enabled(s, a) && a.Deliver? && !Consumed(s, a)
    requires a.message.event.run.OfRun? && Handled(s.store, a.message.event, a.env).committed
    ensures !TokensOk(Next(s, a))
  {
    var run := a.message.event.run.id;
    DeliveryEffect(s, a);
    ResumeFindsRun(s, a);
    var row := s.store.runs[run];
    RowTokens(row, EventOf(s.store, run), StepsOf(s.store, run), row.index, a.env);
    assert !TokenOk(Next(s, a), run);
  }

  lemma {:induction false} NewRunHasNone(s: System)
    requires Coherent(s)
    ensures s.store.nextId !in s.store.runs
    ensures forall m :: m in s.events ==> m.event.run != OfRun(s.store.nextId)
  {
  }

  lemma {:induction false} TriggerLeavesWakeUps(s: System, a: Action)
    requires a.Deliver? && a.message.event.run.NoRun?
    ensures forall tenant: string, r: nat :: Next(s, a).events[WakeUp(tenant, r)] == s.events[WakeUp(tenant, r)]
  {
  }

  // The run a trigger event starts, seen as a move.
  lemma {:induction false} StartMovesOne(s: System, t: System, ev: Event, env: Env)
    requires Coherent(s) && TokensOk(s) && Active(s.store, env.pick, ev)
    requires t.store.runs == s.store.runs[s.store.nextId := StartedRow(s.store, ev, env)]
    requires t.lost == s.lost
    requires forall tenant: string, r: nat :: t.events[WakeUp(tenant, r)] == s.events[WakeUp(tenant, r)]
    ensures TokensOk(t)
  {
    RowTokens(NewRow(ev, env.pick), ev, s.store.workflows[env.pick].steps, 0, env);
    NewRunHasNone(s);
    MoveKeepsTokens(s, t, s.store.nextId, StartedRow(s.store, ev, env));
  }

  // Trigger events may be redelivered: each commit starts a run of its own.
  lemma {:induction false} StartKeepsTokens(s: System, a: Action)
    requires Coherent(s) && TokensOk(s) && Enabled(s, a) && a.Deliver?
    requires Handled(s.store, a.message.event, a.env).committed && a.message.event.run.NoRun?
    ensures TokensOk(Next(s, a))
  {
    DeliveryEffect(s, a);
    TriggerLeavesWakeUps(s, a);
    if Active(s.store, a.env.pick, a.message.event) {
      StartMovesOne(s, Next(s, a), a.message.event, a.env);
    } else {
      IdleKeepsTokens(s, Next(s, a));
    }
  }

  lemma {:induction false} DeliverTokensIff(s: System, a: Action)
    requires Coherent(s) && TokensOk(s) && Enabled(s, a) && a.Deliver?
    ensures TokensOk(Next(s, a)) <==> Sound(s, a)
  {
    if !Handled(s.store, a.message.event, a.env).committed {
      DeliveryEffect(s, a);
      IdleKeepsTokens(s, Next(s, a));
    } else if a.message.event.run.NoRun? {
      StartKeepsTokens(s, a);
    } else if Consumed(s, a) {
      ResumeKeepsTokens(s, a);
    } else {
      RedeliveryBreaksTokens(s, a);
    }
  }

  lemma {:induction false} TickKeepsTokens(s: System, a: Action)
    requires Coherent(s) && TokensOk(s) && Enabled(s, a) && a.Tick? && Sound(s, a)
    ensures TokensOk(Next(s, a))
  {
    var body := TickBody(s.store, a.tenant, a.batch, a.faults);
    var t := Next(s, a);
    if Commits(body.tx.aborted, a.commit) {
      TickExact(s, a);
      var tx := Statement(BeginTx(s.store, a.faults), a.faults, true);
      forall r | r in t.store.runs ensures TokenOk(t, r) {
        assert TokenOk(s, r);
        var tenant := s.store.runs[r].tenant;
        if tenant != a.tenant && WakeUp(tenant, r) in body.sent {
          TickSends(tx, a.tenant, a.batch, a.faults, WakeUp(tenant, r));
        }
        if r in a.batch {
          assert IsDue(s.store, a.tenant, a.at, r);
        }
      }
    } else {
      forall r | r in t.store.runs ensures TokenOk(t, r) {
        assert TokenOk(s, r);
      }
    }
  }

  // A tick that publishes a wake-up and does not commit leaves its run waiting as well.
  lemma {:induction false} UncommittedTickBreaksTokens(s: System, a: Action)
    requires Coherent(s) && TokensOk(s) && Enabled(s, a) && a.Tick? && !Sound(s, a)
    ensures !TokensOk(Next(s, a))
  {
    var m := TickBody(s.store, a.tenant, a.batch, a.faults).sent[0];
    TickSends(Statement(BeginTx(s.store, a.faults), a.faults, true), a.tenant, a.batch, a.faults, m);
    var run := m.event.run.id;
    assert IsDue(s.store, a.tenant, a.at, run);
    assert TokenOk(s, run);
    assert !TokenOk(Next(s, a), run);
  }

  lemma {:induction false} OtherStepKeepsTokens(s: System, a: Action)
    requires TokensOk(s) && Enabled(s, a) && !a.Deliver? && !a.Tick?
    ensures TokensOk(Next(s, a))
  {
    var t := Next(s, a);
    assert t.store.runs == s.store.runs;
    forall r | r in t.store.runs ensures TokenOk(t, r) {
      assert TokenOk(s, r);
      assert InFlight(t, r) == InFlight(s, r);
    }
  }

  // Exactly the sound steps keep the tokens right.
  lemma {:induction false} StepTokensIff(s: System, a: Action)
    requires Coherent(s) && TokensOk(s) && Enabled(s, a)
    ensures TokensOk(Next(s, a)) <==> Sound(s, a)
  {
    if a.Deliver? {
      DeliverTokensIff(s, a);
    } else if !a.Tick? {
      OtherStepKeepsTokens(s, a);
    } else if Sound(s, a) {
      TickKeepsTokens(s, a);
    } else {
      UncommittedTickBreaksTokens(s, a);
    }
  }

  // In every state of the history.
  ghost predicate TokensAlwaysOk(actions: seq<Action>) {
    TokensOk(RunAll(START, actions)) && (actions == [] || TokensAlwaysOk(actions[..|actions| - 1]))
  }

  // Through a whole history, whatever else fails, each running run has exactly one token, waiting or in flight, save
  // those whose publish was rejected, and no other run has any - if and only if every step was sound.
  lemma {:induction false} TokenInvariant(actions: seq<Action>)
    requires Legal(START, actions)
    ensures TokensAlwaysOk(actions) <==> AllSound(START, actions)
  {
    if actions != [] {
      var n := |actions| - 1;
      TokenInvariant(actions[..n]);
      if TokensAlwaysOk(actions[..n]) {
        AlwaysCoherent(actions[..n]);
        StepTokensIff(RunAll(START, actions[..n]), actions[n]);
      }
    }
  }

  predicate Loses(s: System, a: Action, r: nat) {
    a.Tick? &&
    var t := TickBody(s.store, a.tenant, a.batch, a.faults);
    Commits(t.tx.aborted, a.commit) && r in t.rejected
  }

  // A committed tick of the history had its publish of the run's wake-up rejected.
  ghost predicate RejectedIn(actions: seq<Action>, r: nat) {
    if actions == [] then false
    else
      || RejectedIn(actions[..|actions| - 1], r)
      || Loses(RunAll(START, actions[..|actions| - 1]), actions[|actions| - 1], r)
  }

  lemma {:induction false} LostIffRejected(actions: seq<Action>, r: nat)
    ensures r in RunAll(START, actions).lost <==> RejectedIn(actions, r)
  {
    if actions != [] {
      LostIffRejected(actions[..|actions| - 1], r);
    }
  }

  // After sound steps a run has one token if it is running and no committed tick had its publish rejected, and none
  // otherwise.
  lemma {:induction false} RunningIffOneToken(actions: seq<Action>, r: nat)
    requires Legal(START, actions) && AllSound(START, actions)
    requires r in RunAll(START, actions).store.runs
    ensures var s := RunAll(START, actions);
            Pending(s.store.runs[r]) + InFlight(s, r) ==
            if s.store.runs[r].status == Running && !RejectedIn(actions, r) then 1 else 0
  {
    TokenInvariant(actions);
    LostIffRejected(actions, r);
    assert TokenOk(RunAll(START, actions), r);
  }

  // ---- When a run is resumed early ----

  // A resume time set in a row is the last one written for its run, and a running row without one is past it.
  ghost predicate TimeOk(s: System, r: nat)
    requires r in s.store.runs
  {
    match s.store.runs[r].resumeAt
    case WakeAt(t) => r in s.due && s.due[r] == t
    case NoWake => s.store.runs[r].status == Running ==> r in s.due && s.due[r] <= s.clock
  }

  ghost predicate TimesOk(s: System) {
    forall r :: r in s.store.runs ==> TimeOk(s, r)
  }

  lemma {:induction false} DeliverKeepsTimes(s: System, a: Action)
    requires TimesOk(s) && Enabled(s, a) && a.Deliver?
    ensures TimesOk(Next(s, a))
  {
    var ev, env := a.message.event, a.env;
    DeliveryEffect(s, a);
    if Handled(s.store, ev, env).committed {
      if ev.run.OfRun? && Resumable(s.store, ev.run.id) {
        var row := s.store.runs[ev.run.id];
        PassWaits(row, EventOf(s.store, ev.run.id), StepsOf(s.store, ev.run.id), row.index, env);
        MoveKeepsTimes(s, Next(s, a), ev.run.id, ResumedRow(s.store, ev.run.id, env));
      } else if ev.run.NoRun? && Active(s.store, env.pick, ev) {
        PassWaits(NewRow(ev, env.pick), ev, s.store.workflows[env.pick].steps, 0, env);
        MoveKeepsTimes(s, Next(s, a), s.store.nextId, StartedRow(s.store, ev, env));
      } else {
        KeepTimes(s, Next(s, a));
      }
    } else {
      KeepTimes(s, Next(s, a));
    }
  }

  // A pass that leaves its run running has set a resume time.
  lemma {:induction false} PassWaits(row: Run, ev: Event, steps: seq<Step>, start: int, env: Env)
    ensures var row' := RowAfter(row, steps, PassOutcome(ev, steps, start, env), env.now);
            row'.status == Running ==> row'.resumeAt.WakeAt?
  {
    SegmentPauseInside(FlowOf(steps, VerdictOf(env, ev)), ClampStart(start), 0);
  }

  lemma {:induction false} MoveKeepsTimes(s: System, t: System, run: nat, row: Run)
    requires TimesOk(s) && s.clock <= t.clock && t.store.runs == s.store.runs[run := row]
    requires t.due == s.due + ResumeTimes(t.store.runs) && (row.status == Running ==> row.resumeAt.WakeAt?)
    ensures TimesOk(t)
  {
    forall r | r in t.store.runs ensures TimeOk(t, r) {
      assert r != run ==> TimeOk(s, r);
    }
  }

  lemma {:induction false} KeepTimes(s: System, t: System)
    requires TimesOk(s) && s.clock <= t.clock && t.store.runs == s.store.runs
    requires t.due == s.due || t.due == s.due + ResumeTimes(s.store.runs)
    ensures TimesOk(t)
  {
    forall r | r in t.store.runs ensures TimeOk(t, r) {
      assert TimeOk(s, r);
    }
  }

  lemma {:induction false} TickKeepsTimes(s: System, a: Action)
    requires TimesOk(s) && Enabled(s, a) && a.Tick?
    ensures TimesOk(Next(s, a))
  {
    var body := TickBody(s.store, a.tenant, a.batch, a.faults);
    if Commits(body.tx.aborted, a.commit) {
      TickExact(s, a);
      forall r | r in Next(s, a).store.runs ensures TimeOk(Next(s, a), r) {
        assert TimeOk(s, r);
        assert r in a.batch ==> IsDue(s.store, a.tenant, a.at, r);
      }
    } else {
      KeepTimes(s, Next(s, a));
    }
  }

  // Whatever fails.
  lemma {:induction false} TimesAlwaysOk(actions: seq<Action>)
    requires Legal(START, actions)
    ensures TimesOk(RunAll(START, actions))
  {
    if actions != [] {
      var s, a := RunAll(START, actions[..|actions| - 1]), actions[|actions| - 1];
      TimesAlwaysOk(actions[..|actions| - 1]);
      if a.Deliver? {
        DeliverKeepsTimes(s, a);
      } else if a.Tick? {
        TickKeepsTimes(s, a);
      } else {
        KeepTimes(s, Next(s, a));
      }
    }
  }

  // In every reachable state, whatever has failed, a run is resumed before the last resume time written for it exactly
  // when its row still shows a resume time that has not come: the one thing that resuming does not look at.
  lemma {:induction false} EarlyIffStillWaiting(actions: seq<Action>, a: Action)
    requires Legal(START, actions) && Enabled(RunAll(START, actions), a)
    requires a.Deliver? && a.message.event.run.OfRun? && Resumable(RunAll(START, actions).store, a.message.event.run.id)
    ensures var s := RunAll(START, actions);
            var r := a.message.event.run.id;
            var resume := s.store.runs[r].resumeAt;
            r in s.due && (a.env.now < s.due[r] <==> resume.WakeAt? && a.env.now < resume.t)
  {
    TimesAlwaysOk(actions);
    assert TimeOk(RunAll(START, actions), a.message.event.run.id);
  }

  // After sound steps it never does: whenever a run is resumed, the clock is past the last resume time written for it.
  lemma {:induction false} NeverEarly(actions: seq<Action>, a: Action)
    requires Legal(START, actions) && AllSound(START, actions)
    requires a.Deliver? && a.message.event.run.OfRun? && Enabled(RunAll(START, actions), a)
    ensures var s := RunAll(START, actions); var r := a.message.event.run.id;
            r in s.store.runs && s.store.runs[r].status == Running && r in s.due && s.due[r] < a.env.now
  {
    TokenInvariant(actions);
    AlwaysCoherent(actions);
    TimesAlwaysOk(actions);
    ResumeFindsRun(RunAll(START, actions), a);
    assert TimeOk(RunAll(START, actions), a.message.event.run.id);
  }

  // ---- Without the hypotheses ----

  // The first pass of a wake-up pauses again and commits, but its acknowledgement is lost: the redelivered message
  // runs the steps after the new delay at once, whatever its length, because resuming checks only the status.
  lemma {:induction false} RedeliveryCutsDelay(s: System, r: nat, f: Condition.Formats, t1: int, t2: int)
    requires s.clock < t1 < t2 && Resumable(s.store, r) && !Stuck(s.store, r, f)
    requires WakeUp(s.store.runs[r].tenant, r) in s.events
    requires Segment(FlowFor(s.store, r, f), StartOf(s.store, r), 0).Paused?
    ensures var o := Segment(FlowFor(s.store, r, f), StartOf(s.store, r), 0);
            var m := WakeUp(s.store.runs[r].tenant, r);
            var first, again := Deliver(t1, m, CleanEnv(f, t1), true), Deliver(t2, m, CleanEnv(f, t2), false);
            var s1 := Next(s, first);
            && Enabled(s, first) && Enabled(s1, again)
            && o.at < |StepsOf(s.store, r)|
            && r in s1.store.runs
            && s1.store.runs[r] == PausedRow(s.store.runs[r], StepsOf(s.store, r)[o.at], o.next, t1)
            && Next(s1, again).store.runs == s1.store.runs[r :=
                 RowAfter(s1.store.runs[r], StepsOf(s.store, r), Segment(FlowFor(s.store, r, f), o.next, 0), t2)]
  {
    var flow := FlowFor(s.store, r, f);
    var o := Segment(flow, StartOf(s.store, r), 0);
    var m := WakeUp(s.store.runs[r].tenant, r);
    SegmentPauseInside(flow, StartOf(s.store, r), 0);
    assert m.event == WakeEvent(s.store, r);
    CleanWake(s.store, r, f, t1);
    SentAllFrame(s.store, EventOf(s.store, r), Visited(s.store, r, o.visits), r);
    var s1 := Next(s, Deliver(t1, m, CleanEnv(f, t1), true));
    PassLeadsOn(flow, StartOf(s.store, r));
    StaysUnstuck(s.store, s1.store, r, f, o.next);
    CleanWake(s1.store, r, f, t2);
  }

  // A tick that publishes a run's wake-up and then fails to commit leaves the run due; the next tick that picks it
  // and commits puts a second wake-up in flight.
  lemma {:induction false} FailedCommitWakesTwice(s: System, a: Action, b: Action, r: nat)
    requires a.Tick? && Enabled(s, a) && b.Tick? && Enabled(Next(s, a), b) && a.tenant == b.tenant
    requires var t := TickBody(s.store, a.tenant, a.batch, a.faults);
             !Commits(t.tx.aborted, a.commit) && WakeUp(a.tenant, r) in t.sent
    requires var t := TickBody(s.store, b.tenant, b.batch, b.faults);
             Commits(t.tx.aborted, b.commit) && r in b.batch && r !in t.rejected
    ensures Next(Next(s, a), b).events[WakeUp(a.tenant, r)] >= 2
  {
    TickExact(Next(s, a), b);
    assert IsDue(s.store, b.tenant, b.at, r);
  }

  // A running run with no resume time and no message: nothing will ever wake it.
  ghost predicate Stranded(s: System, r: nat) {
    && r in s.store.runs && s.store.runs[r].status == Running && s.store.runs[r].resumeAt == NoWake
    && forall m :: m in s.events ==> m.event.run != OfRun(r)
  }

  // After sound steps, exactly the runs whose wake-up a committed tick failed to publish are stranded.
  lemma {:induction false} LostIsStranded(actions: seq<Action>, r: nat)
    requires Legal(START, actions) && AllSound(START, actions)
    ensures RejectedIn(actions, r) <==> Stranded(RunAll(START, actions), r)
  {
    LostIffRejected(actions, r);
    TokenInvariant(actions);
    AlwaysCoherent(actions);
    var s := RunAll(START, actions);
    if r in s.store.runs {
      assert TokenOk(s, r);
      forall m | m in s.events && m.event.run == OfRun(r) ensures m == WakeUp(s.store.runs[r].tenant, r) {
      }
    }
  }

  lemma {:induction false} DeliverKeepsStranded(s: System, a: Action, r: nat)
    requires Orderly(s.store) && Stranded(s, r) && Enabled(s, a) && a.Deliver?
    ensures Stranded(Next(s, a), r) && Next(s, a).store.runs[r] == s.store.runs[r]
  {
    HandledRuns(s.store, a.message.event, a.env);
    assert forall m :: m in Next(s, a).events ==> m in s.events;
  }

  lemma {:induction false} TickKeepsStranded(s: System, a: Action, r: nat)
    requires Stranded(s, r) && Enabled(s, a) && a.Tick?
    ensures Stranded(Next(s, a), r) && Next(s, a).store.runs[r] == s.store.runs[r]
  {
    var tx := Statement(BeginTx(s.store, a.faults), a.faults, true);
    assert r !in a.batch;
    RunUntouched(tx, a.tenant, a.batch, a.faults, r);
    forall m | m in TickBody(s.store, a.tenant, a.batch, a.faults).sent ensures m.event.run != OfRun(r) {
      TickSends(tx, a.tenant, a.batch, a.faults, m);
    }
  }

  lemma {:induction false} StrandedStays(s: System, a: Action, r: nat)
    requires Orderly(s.store) && Stranded(s, r) && Enabled(s, a)
    ensures Stranded(Next(s, a), r) && Next(s, a).store.runs[r] == s.store.runs[r]
  {
    if a.Deliver? {
      DeliverKeepsStranded(s, a, r);
    } else if a.Tick? {
      TickKeepsStranded(s, a, r);
    }
  }

  lemma {:induction false} RunUntouched(tx: Tx, tenant: string, batch: seq<nat>, faults: seq<Fault>, r: nat)
    requires r !in batch && r in tx.store.runs
    ensures var t := TickRuns(tx, tenant, batch, faults); r in t.tx.store.runs && t.tx.store.runs[r] == tx.store.runs[r]
    decreases batch
  {
    if batch != [] {
      var tx1 := TurnOf(tx, tenant, batch[0], faults).tx;
      RunUntouched(tx1, tenant, batch[1..], faults, r);
    }
  }

  // A stranded run stays as it is for ever, whatever happens and whatever fails afterwards.
  lemma {:induction false} StrandedForever(s: System, actions: seq<Action>, r: nat)
    requires Coherent(s) && Stranded(s, r) && Legal(s, actions)
    ensures Coherent(RunAll(s, actions)) && Stranded(RunAll(s, actions), r)
    ensures RunAll(s, actions).store.runs[r] == s.store.runs[r]
  {
    if actions != [] {
      var n := |actions| - 1;
      StrandedForever(s, actions[..n], r);
      StepKeepsCoherence(RunAll(s, actions[..n]), actions[n]);
      StrandedStays(RunAll(s, actions[..n]), actions[n], r);
    }
  }

  // A committed tick whose publish of a run's wake-up is rejected loses the run for good.
  lemma {:induction false} RejectedPublishStrands(s: System, a: Action, later: seq<Action>, r: nat)
    requires Coherent(s) && TokensOk(s) && a.Tick? && Enabled(s, a) && Legal(Next(s, a), later)
    requires var t := TickBody(s.store, a.tenant, a.batch, a.faults); Commits(t.tx.aborted, a.commit) && r in t.rejected
    ensures r in s.store.runs && r in RunAll(Next(s, a), later).store.runs
    ensures s.store.runs[r].status == Running && s.store.runs[r].resumeAt.WakeAt?
    ensures RunAll(Next(s, a), later).store.runs[r] == s.store.runs[r].(resumeAt := NoWake)
  {
    TickExact(s, a);
    TickKeepsTokens(s, a);
    StepKeepsCoherence(s, a);
    assert IsDue(s.store, a.tenant, a.at, r);
    var t := Next(s, a);
    assert TokenOk(t, r);
    forall m | m in t.events ensures m.event.run == OfRun(r) ==> m == WakeUp(t.store.runs[r].tenant, r) {
    }
    StrandedForever(t, later, r);
  }
}
