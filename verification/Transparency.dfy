// Whole runs on the real tables: a run that pauses and is woken again and again does what the walk with its
// delays erased does.
module Transparency {
  import opened Faults
  import opened Walk
  import opened Workflow
  import opened Engine
  import opened RunSemantics
  import Condition
  import ConsentLedger
  import Preferences

  // ---- Fault-free passes ----

  ghost predicate AllInsertable(ev: Event, steps: seq<Step>) {
    forall k :: 0 <= k < |steps| ==> Insertable(ev, steps[k].channel)
  }

  lemma {:induction false} FaultFreeStride(tx: Tx, ev: Event, step: Step, node: Node, run: nat, env: Env)
    requires !tx.aborted && env.faults == [] && !node.mark.Delay?
    ensures var st := Strode(tx, ev, step, node, run, env);
            && st.more
            && (st.result.ok <==>
                 (node.mark.Channel? && OptedIn(tx.store.matrix, ev, step.channel) ==> Insertable(ev, step.channel)))
            && (st.result.ok ==> !st.result.tx.aborted && st.result.tx.store.matrix == tx.store.matrix)
  {
  }

  lemma {:induction false} ServedPrepend(
    steps: seq<Step>, matrix: Preferences.Matrix, ev: Event, flow: Flow, i: nat, visits: seq<nat>
  )
    requires |flow| == |steps| && i < |flow|
    ensures AllInsertable(ev, Served(steps, matrix, ev, VisitOf(flow, i) + visits)) <==>
            && (flow[i].mark.Channel? && OptedIn(matrix, ev, steps[i].channel) ==> Insertable(ev, steps[i].channel))
            && AllInsertable(ev, Served(steps, matrix, ev, visits))
  {
    var v, rest := VisitOf(flow, i), Served(steps, matrix, ev, visits);
    if flow[i].mark.Channel? {
      assert (v + visits)[1..] == visits;
      if OptedIn(matrix, ev, steps[i].channel) {
        var all := [steps[i]] + rest;
        assert all[0] == steps[i] && forall k :: 0 < k < |all| ==> all[k] == rest[k - 1];
        assert forall k :: 0 <= k < |rest| ==> rest[k] == all[k + 1];
      }
    } else {
      assert v + visits == visits;
    }
  }

  // Without failures a pass succeeds exactly when the table accepts every notification it has to insert.
  lemma {:induction false} FaultFreePassSucceeds(
    tx: Tx, ev: Event, steps: seq<Step>, flow: Flow, run: nat, i: nat, visited: nat, env: Env
  )
    requires |flow| == |steps| && !tx.aborted && env.faults == []
    ensures Executed(tx, ev, steps, flow, run, i, visited, env).ok <==>
            AllInsertable(ev, Served(steps, tx.store.matrix, ev, Segment(flow, i, visited).visits))
    decreases MaxIterations(flow) + 1 - visited
  {
    if i < |flow| && visited <= MaxIterations(flow) && !flow[i].mark.Delay? {
      var o := Segment(flow, flow[i].next, visited + 1);
      ServedPrepend(steps, tx.store.matrix, ev, flow, i, o.visits);
      FaultFreeStride(tx, ev, steps[i], flow[i], run, env);
      var st := Strode(tx, ev, steps[i], flow[i], run, env);
      if st.result.ok {
        FaultFreePassSucceeds(st.result.tx, ev, steps, flow, run, flow[i].next, visited + 1, env);
      }
    }
  }

  // ---- Consent ----

  // After any history of consent, a notification is inserted and its job published exactly when the last ledger
  // entry for the most specific key it mentions is an opt-in, or it mentions none.
  lemma {:induction false} ConsentDecidesDispatch(
    calls: seq<ConsentLedger.Call>, tx: Tx, ev: Event, step: Step, run: nat
  )
    requires !tx.aborted && Insertable(ev, step.channel)
    requires tx.store.matrix == ConsentLedger.History(ConsentLedger.EMPTY, calls).matrix
    ensures var r := Dispatched(tx, ev, step, run, []);
            var ledger := ConsentLedger.History(ConsentLedger.EMPTY, calls).ledger;
            && r.ok
            && r.tx.store == if ConsentLedger.Consents(ledger, PreferenceKey(ev, step.channel))
                             then Sent(tx.store, ev, step, run) else tx.store
  {
    ConsentLedger.LookupFollowsLedger(calls, PreferenceKey(ev, step.channel));
  }

  // The visited channel steps to which the ledger consents.
  ghost function Consented(steps: seq<Step>, ledger: seq<ConsentLedger.Entry>, ev: Event, visits: seq<nat>): seq<Step> {
    if visits == [] then []
    else
      var rest := Consented(steps, ledger, ev, visits[1..]);
      if visits[0] < |steps| && ConsentLedger.Consents(ledger, PreferenceKey(ev, steps[visits[0]].channel))
      then [steps[visits[0]]] + rest else rest
  }

  // So a whole pass serves exactly those.
  lemma {:induction false} ConsentDecidesPass(
    calls: seq<ConsentLedger.Call>, steps: seq<Step>, ev: Event, visits: seq<nat>
  )
    ensures var s := ConsentLedger.History(ConsentLedger.EMPTY, calls);
            Served(steps, s.matrix, ev, visits) == Consented(steps, s.ledger, ev, visits)
  {
    if visits != [] {
      ConsentDecidesPass(calls, steps, ev, visits[1..]);
      if visits[0] < |steps| {
        ConsentLedger.LookupFollowsLedger(calls, PreferenceKey(ev, steps[visits[0]].channel));
      }
    }
  }

  // ---- Waking a run repeatedly ----

  function WakeEvent(s: Store, run: nat): Event
    requires run in s.runs
  {
    Event(s.runs[run].tenant, "", "", map[], OfRun(run))
  }

  function CleanEnv(f: Condition.Formats, now: int): Env {
    Env(f, now, "", [], NoFault)
  }

  function Woke(s: Store, run: nat, f: Condition.Formats, now: int): Store {
    if run in s.runs then Handled(s, WakeEvent(s, run), CleanEnv(f, now)).store else s
  }

  // The tables after a wake-up at each of the given times, nothing failing and nobody editing the workflow.
  function Woken(s: Store, run: nat, f: Condition.Formats, times: seq<int>): Store
    requires run in s.runs
  {
    if times == [] then s
    else Woke(Woken(s, run, f, times[..|times| - 1]), run, f, times[|times| - 1])
  }

  function FlowFor(s: Store, run: nat, f: Condition.Formats): Flow
    requires Resumable(s, run)
  {
    FlowOf(StepsOf(s, run), VerdictOf(CleanEnv(f, 0), EventOf(s, run)))
  }

  function StartOf(s: Store, run: nat): nat
    requires run in s.runs
  {
    ClampStart(s.runs[run].index)
  }

  // A channel step the run's subscriber is opted in to and the notification table will not accept.
  predicate Refuses(s: Store, run: nat, p: nat)
    requires Resumable(s, run)
  {
    var steps, ev := StepsOf(s, run), EventOf(s, run);
    && p < |steps| && steps[p].kind.ChannelStep? && OptedIn(s.matrix, ev, steps[p].channel)
    && !Insertable(ev, steps[p].channel)
  }

  // The erased walk comes to such a step.
  ghost predicate MeetsRefusal(s: Store, run: nat, f: Condition.Formats)
    requires Resumable(s, run)
  {
    exists p :: Refuses(s, run, p) && Reaches(FlowFor(s, run, f), StartOf(s, run), p)
  }

  // Something other than an outside failure stops every pass, or the one that gets that far.
  ghost predicate Stuck(s: Store, run: nat, f: Condition.Formats)
    requires Resumable(s, run)
  {
    !Readable(s, run) || MeetsRefusal(s, run, f)
  }

  // The row a run state shows in the table.
  predicate Shows(row: Run, n: nat, state: RunState) {
    match state
    case Waiting(next, _, _) => row.status == Running && row.index == next
    case Done(_, _) => row.status == Completed && row.index == n
    case Cyclic(_, _) => row.status == Failed && row.error == GUARD_ERROR
  }

  predicate SameRun(a: Run, b: Run) {
    a == b.(status := a.status, index := a.index, resumeAt := a.resumeAt, error := a.error)
  }

  function Visited(s: Store, run: nat, visits: seq<nat>): seq<Step>
    requires Resumable(s, run)
  {
    Served(StepsOf(s, run), s.matrix, EventOf(s, run), visits)
  }

  // The tables while the run plays out: one notification and job per opted-in channel step visited so far.
  ghost predicate Follows(s: Store, t: Store, run: nat, state: RunState)
    requires Resumable(s, run)
  {
    && run in t.runs && SameRun(t.runs[run], s.runs[run]) && Shows(t.runs[run], |StepsOf(s, run)|, state)
    && t == SentAll(s, EventOf(s, run), Visited(s, run, state.visits), run).(runs := t.runs)
  }

  lemma {:induction false} ServedAdd(steps: seq<Step>, matrix: Preferences.Matrix, ev: Event, v: seq<nat>, w: seq<nat>)
    ensures Served(steps, matrix, ev, v + w) == Served(steps, matrix, ev, v) + Served(steps, matrix, ev, w)
  {
    if v == [] {
      assert v + w == w;
    } else {
      assert (v + w)[1..] == v[1..] + w;
      ServedAdd(steps, matrix, ev, v[1..], w);
    }
  }

  lemma {:induction false} SentAllAdd(s: Store, ev: Event, a: seq<Step>, b: seq<Step>, run: nat, runs: map<nat, Run>)
    ensures SentAll(SentAll(s, ev, a, run).(runs := runs), ev, b, run) == SentAll(s, ev, a + b, run).(runs := runs)
    decreases |a| + |b|
  {
    if a == [] {
      assert a + b == b;
      SentAllRuns(s, ev, b, run, runs);
    } else {
      assert (a + b)[1..] == a[1..] + b;
      SentAllAdd(Sent(s, ev, a[0], run), ev, a[1..], b, run, runs);
    }
  }

  lemma {:induction false} SentAllRuns(s: Store, ev: Event, b: seq<Step>, run: nat, runs: map<nat, Run>)
    ensures SentAll(s.(runs := runs), ev, b, run) == SentAll(s, ev, b, run).(runs := runs)
    decreases b
  {
    if b != [] {
      assert Sent(s.(runs := runs), ev, b[0], run) == Sent(s, ev, b[0], run).(runs := runs);
      SentAllRuns(Sent(s, ev, b[0], run), ev, b[1..], run, runs);
    }
  }

  ghost predicate NoneRefused(s: Store, run: nat, visits: seq<nat>)
    requires Resumable(s, run)
  {
    forall k :: 0 <= k < |visits| ==> !Refuses(s, run, visits[k])
  }

  ghost predicate AreChannels(steps: seq<Step>, visits: seq<nat>) {
    forall k :: 0 <= k < |visits| ==> visits[k] < |steps| && steps[visits[k]].kind.ChannelStep?
  }

  // The table accepts what a pass has to insert exactly when none of its visits is refused.
  lemma {:induction false} ServedInsertable(s: Store, run: nat, visits: seq<nat>)
    requires Resumable(s, run) && AreChannels(StepsOf(s, run), visits)
    ensures AllInsertable(EventOf(s, run), Visited(s, run, visits)) <==> NoneRefused(s, run, visits)
  {
    if visits != [] {
      ServedInsertable(s, run, visits[1..]);
      HeadInsertable(s, run, visits);
    }
  }

  lemma {:induction false} HeadInsertable(s: Store, run: nat, visits: seq<nat>)
    requires Resumable(s, run) && AreChannels(StepsOf(s, run), visits) && visits != []
    ensures NoneRefused(s, run, visits) <==> !Refuses(s, run, visits[0]) && NoneRefused(s, run, visits[1..])
    ensures AllInsertable(EventOf(s, run), Visited(s, run, visits)) <==>
            !Refuses(s, run, visits[0]) && AllInsertable(EventOf(s, run), Visited(s, run, visits[1..]))
  {
    var rest := visits[1..];
    assert forall k :: 1 <= k < |visits| ==> visits[k] == rest[k - 1];
    assert forall k :: 0 <= k < |rest| ==> rest[k] == visits[k + 1];
    var served, head := Visited(s, run, rest), StepsOf(s, run)[visits[0]];
    var all := [head] + served;
    assert forall k :: 0 < k < |all| ==> all[k] == served[k - 1];
    assert forall k :: 0 <= k < |served| ==> served[k] == all[k + 1];
    assert all[0] == head;
  }

  // The visits of a pass are channel steps the erased walk reaches.
  lemma {:induction false} PassVisits(s: Store, run: nat, f: Condition.Formats)
    requires Resumable(s, run)
    ensures var visits := Segment(FlowFor(s, run, f), StartOf(s, run), 0).visits;
            && AreChannels(StepsOf(s, run), visits)
            && (!MeetsRefusal(s, run, f) ==> NoneRefused(s, run, visits))
  {
    var flow, start := FlowFor(s, run, f), StartOf(s, run);
    var visits := Segment(flow, start, 0).visits;
    forall k | 0 <= k < |visits|
      ensures visits[k] < |flow| && StepsOf(s, run)[visits[k]].kind.ChannelStep? && Reaches(flow, start, visits[k])
    {
      PassVisitsReached(flow, start, visits[k]);
      assert flow[visits[k]] == NodeOf(StepsOf(s, run), VerdictOf(CleanEnv(f, 0), EventOf(s, run)), visits[k]);
    }
  }

  lemma {:induction false} FlowOfEnv(s: Store, run: nat, env: Env)
    requires Resumable(s, run)
    ensures FlowOf(StepsOf(s, run), VerdictOf(env, EventOf(s, run))) == FlowFor(s, run, env.formats)
  {
    var steps, ev := StepsOf(s, run), EventOf(s, run);
    assert forall k | 0 <= k < |steps| ::
      NodeOf(steps, VerdictOf(env, ev), k) == NodeOf(steps, VerdictOf(CleanEnv(env.formats, 0), ev), k);
  }

  // What one wake-up of a running run does when no statement and no publish fails.
  lemma {:induction false} UnbrokenWake(s: Store, run: nat, env: Env)
    requires Resumable(s, run) && !Stuck(s, run, env.formats) && env.faults == []
    ensures var o := Segment(FlowFor(s, run, env.formats), StartOf(s, run), 0);
            var t := PassResult(s, EventOf(s, run), StepsOf(s, run), run, o, env.now);
            Handled(s, WakeEvent(s, run), env).store == if env.commit == Rejected then RolledBack(s, t) else t
  {
    var ev, steps, flow := EventOf(s, run), StepsOf(s, run), FlowFor(s, run, env.formats);
    var tx1 := Statement(BeginTx(s, []), [], true);
    FlowOfEnv(s, run, env);
    PassVisits(s, run, env.formats);
    ServedInsertable(s, run, Segment(flow, StartOf(s, run), 0).visits);
    FaultFreePassSucceeds(tx1, ev, steps, flow, run, StartOf(s, run), 0, env);
    ExecutedExact(tx1, ev, steps, flow, run, StartOf(s, run), 0, env);
  }

  lemma {:induction false} CleanWake(s: Store, run: nat, f: Condition.Formats, now: int)
    requires Resumable(s, run) && !Stuck(s, run, f)
    ensures Handled(s, WakeEvent(s, run), CleanEnv(f, now)).store ==
            PassResult(s, EventOf(s, run), StepsOf(s, run), run, Segment(FlowFor(s, run, f), StartOf(s, run), 0), now)
  {
    UnbrokenWake(s, run, CleanEnv(f, now));
  }

  // What is met later on is met from the start.
  lemma {:induction false} StaysUnstuck(s: Store, t: Store, run: nat, f: Condition.Formats, next: nat)
    requires Resumable(s, run) && !Stuck(s, run, f)
    requires t.workflows == s.workflows && t.matrix == s.matrix && run in t.runs && SameRun(t.runs[run], s.runs[run])
    requires t.runs[run].status == Running && t.runs[run].index == next
    requires Reaches(FlowFor(s, run, f), StartOf(s, run), next)
    ensures Resumable(t, run) && EventOf(t, run) == EventOf(s, run) && StepsOf(t, run) == StepsOf(s, run)
    ensures FlowFor(t, run, f) == FlowFor(s, run, f) && !Stuck(t, run, f)
  {
    var flow := FlowFor(s, run, f);
    assert FlowFor(t, run, f) == flow;
    var k: nat :| At(flow, StartOf(s, run), k) == next;
    forall p | Reaches(flow, next, p) ensures Reaches(flow, StartOf(s, run), p) {
      ReachesOn(flow, StartOf(s, run), k, p);
    }
    assert forall p :: Refuses(t, run, p) <==> Refuses(s, run, p);
  }

  lemma {:induction false} FollowsStep(s: Store, t: Store, run: nat, f: Condition.Formats, state: RunState, now: int)
    requires Resumable(s, run) && !Stuck(s, run, f) && Follows(s, t, run, state) && state.Waiting?
    requires Reaches(FlowFor(s, run, f), StartOf(s, run), state.next)
    ensures Follows(s, Handled(t, WakeEvent(t, run), CleanEnv(f, now)).store, run,
                    Absorb(Segment(FlowFor(s, run, f), state.next, 0), state.visits, state.pausedAt))
  {
    var ev, steps, flow := EventOf(s, run), StepsOf(s, run), FlowFor(s, run, f);
    var a := Visited(s, run, state.visits);
    SentAllFrame(s, ev, a, run);
    StaysUnstuck(s, t, run, f, state.next);
    CleanWake(t, run, f, now);
    var o := Segment(flow, state.next, 0);
    SegmentPauseInside(flow, state.next, 0);
    ServedAdd(steps, s.matrix, ev, state.visits, o.visits);
    SentAllAdd(s, ev, a, Served(steps, s.matrix, ev, o.visits), run, t.runs);
  }

  lemma {:induction false} SettledStays(t: Store, run: nat, f: Condition.Formats, now: int)
    requires run in t.runs && t.runs[run].status != Running
    ensures Handled(t, WakeEvent(t, run), CleanEnv(f, now)).store == t
  {
  }

  // Some passes on, the tables are those of the play.
  ghost predicate FollowsPlay(s: Store, t: Store, run: nat, f: Condition.Formats, k: nat)
    requires Resumable(s, run)
  {
    Follows(s, t, run, Play(FlowFor(s, run, f), StartOf(s, run), k))
  }

  lemma {:induction false} FirstWakeFollows(s: Store, run: nat, f: Condition.Formats, now: int)
    requires Resumable(s, run) && !Stuck(s, run, f)
    ensures FollowsPlay(s, Woke(s, run, f, now), run, f, 0)
  {
    var flow := FlowFor(s, run, f);
    CleanWake(s, run, f, now);
    SegmentPauseInside(flow, StartOf(s, run), 0);
    var o := Segment(flow, StartOf(s, run), 0);
    assert [] + o.visits == o.visits;
    SentAllFrame(s, EventOf(s, run), Visited(s, run, o.visits), run);
  }

  // One more wake-up, whether the run is still waiting or has settled.
  lemma {:induction false} NextWakeFollows(s: Store, t: Store, run: nat, f: Condition.Formats, k: nat, now: int)
    requires Resumable(s, run) && !Stuck(s, run, f) && FollowsPlay(s, t, run, f, k)
    ensures FollowsPlay(s, Woke(t, run, f, now), run, f, k + 1)
  {
    var state := Play(FlowFor(s, run, f), StartOf(s, run), k);
    if state.Waiting? {
      var m := PlayExplained(FlowFor(s, run, f), StartOf(s, run), k);
      FollowsStep(s, t, run, f, state, now);
    } else {
      SettledStays(t, run, f, now);
    }
  }

  // After each wake-up, the run's row, its notifications and its jobs are those of the play on the control flow.
  lemma {:induction false} WokenFollowsPlay(s: Store, run: nat, f: Condition.Formats, times: seq<int>)
    requires Resumable(s, run) && !Stuck(s, run, f) && times != []
    ensures FollowsPlay(s, Woken(s, run, f, times), run, f, |times| - 1)
  {
    var n := |times| - 1;
    if n == 0 {
      assert times[..0] == [];
      FirstWakeFollows(s, run, f, times[n]);
    } else {
      WokenFollowsPlay(s, run, f, times[..n]);
      NextWakeFollows(s, Woken(s, run, f, times[..n]), run, f, n - 1, times[n]);
    }
  }

  function StatusOf(state: RunState): Status {
    match state
    case Waiting(_, _, _) => Running
    case Done(_, _) => Completed
    case Cyclic(_, _) => Failed
  }

  // Whenever its wake-ups come, the run has this status after n + 1 of them.
  ghost predicate AlwaysAfter(s: Store, run: nat, f: Condition.Formats, n: nat, status: Status)
    requires run in s.runs
  {
    forall times | |times| == n + 1 ::
      run in Woken(s, run, f, times).runs && Woken(s, run, f, times).runs[run].status == status
  }

  // After some number of wake-ups, whenever they come, the run has this status.
  ghost predicate Eventually(s: Store, run: nat, f: Condition.Formats, status: Status)
    requires run in s.runs
  {
    exists n: nat :: AlwaysAfter(s, run, f, n, status)
  }

  ghost predicate StaysRunning(s: Store, run: nat, f: Condition.Formats)
    requires run in s.runs
  {
    forall n: nat :: AlwaysAfter(s, run, f, n, Running)
  }

  lemma {:induction false} StatusFollowsPlay(s: Store, run: nat, f: Condition.Formats, n: nat, status: Status)
    requires Resumable(s, run) && !Stuck(s, run, f)
    ensures AlwaysAfter(s, run, f, n, status) <==> StatusOf(Play(FlowFor(s, run, f), StartOf(s, run), n)) == status
  {
    var state := Play(FlowFor(s, run, f), StartOf(s, run), n);
    forall times | |times| == n + 1
      ensures run in Woken(s, run, f, times).runs && Woken(s, run, f, times).runs[run].status == StatusOf(state)
    {
      WokenFollowsPlay(s, run, f, times);
    }
    var times: seq<int> := seq(n + 1, i => 0);
    assert Woken(s, run, f, times).runs[run].status == StatusOf(state);
  }

  lemma {:induction false} EventuallyCompleted(s: Store, run: nat, f: Condition.Formats)
    requires Resumable(s, run) && !Stuck(s, run, f)
    ensures Eventually(s, run, f, Completed) <==> Completes(FlowFor(s, run, f), StartOf(s, run))
  {
    if n: nat :| AlwaysAfter(s, run, f, n, Completed) {
      StatusFollowsPlay(s, run, f, n, Completed);
    }
    if r: nat :| Play(FlowFor(s, run, f), StartOf(s, run), r).Done? {
      StatusFollowsPlay(s, run, f, r, Completed);
    }
  }

  lemma {:induction false} EventuallyFailed(s: Store, run: nat, f: Condition.Formats)
    requires Resumable(s, run) && !Stuck(s, run, f)
    ensures Eventually(s, run, f, Failed) <==> Fails(FlowFor(s, run, f), StartOf(s, run))
  {
    if n: nat :| AlwaysAfter(s, run, f, n, Failed) {
      StatusFollowsPlay(s, run, f, n, Failed);
    }
    if r: nat :| Play(FlowFor(s, run, f), StartOf(s, run), r).Cyclic? {
      StatusFollowsPlay(s, run, f, r, Failed);
    }
  }

  lemma {:induction false} NeverSettles(s: Store, run: nat, f: Condition.Formats)
    requires Resumable(s, run) && !Stuck(s, run, f)
    ensures StaysRunning(s, run, f) <==> RunsForever(FlowFor(s, run, f), StartOf(s, run))
  {
    forall n: nat
      ensures AlwaysAfter(s, run, f, n, Running) <==> Play(FlowFor(s, run, f), StartOf(s, run), n).Waiting?
    {
      StatusFollowsPlay(s, run, f, n, Running);
    }
  }

  // ---- Stuck runs ----

  // Some wake-ups on, the run is as it was, or has come closer to the step that will stop it.
  ghost predicate Impeded(s: Store, t: Store, run: nat, f: Condition.Formats)
    requires Resumable(s, run)
  {
    && run in t.runs && SameRun(t.runs[run], s.runs[run]) && t.runs[run].status == Running
    && t.workflows == s.workflows && t.matrix == s.matrix && Stuck(t, run, f)
  }

  // A pass that visits a refused step does not commit.
  lemma {:induction false} RefusedPassFails(t: Store, run: nat, f: Condition.Formats, now: int)
    requires Resumable(t, run) && Handled(t, WakeEvent(t, run), CleanEnv(f, now)).committed
    ensures Readable(t, run)
    ensures NoneRefused(t, run, Segment(FlowFor(t, run, f), StartOf(t, run), 0).visits)
  {
    var env := CleanEnv(f, now);
    var tx1 := Statement(BeginTx(t, []), [], true);
    FlowOfEnv(t, run, env);
    PassVisits(t, run, f);
    var flow := FlowFor(t, run, f);
    ServedInsertable(t, run, Segment(flow, StartOf(t, run), 0).visits);
    FaultFreePassSucceeds(tx1, EventOf(t, run), StepsOf(t, run), flow, run, StartOf(t, run), 0, env);
  }

  // The pass leads on to the refused step, if it does not meet it itself.
  lemma {:induction false} RefusalAhead(t: Store, run: nat, f: Condition.Formats)
    requires Resumable(t, run) && MeetsRefusal(t, run, f)
    requires NoneRefused(t, run, Segment(FlowFor(t, run, f), StartOf(t, run), 0).visits)
    ensures var flow := FlowFor(t, run, f); var o := Segment(flow, StartOf(t, run), 0);
            o.Paused? && o.at < |flow| && exists p :: Refuses(t, run, p) && Reaches(flow, o.next, p)
  {
    var flow, start := FlowFor(t, run, f), StartOf(t, run);
    var p: nat :| Refuses(t, run, p) && Reaches(flow, start, p);
    assert flow[p] == NodeOf(StepsOf(t, run), VerdictOf(CleanEnv(f, 0), EventOf(t, run)), p);
    PassCovers(flow, start, p);
    SegmentPauseInside(flow, start, 0);
  }

  lemma {:induction false} ImpededStays(s: Store, t: Store, run: nat, f: Condition.Formats, now: int)
    requires Resumable(s, run) && Impeded(s, t, run, f)
    ensures Impeded(s, Handled(t, WakeEvent(t, run), CleanEnv(f, now)).store, run, f)
  {
    var env := CleanEnv(f, now);
    var u := Handled(t, WakeEvent(t, run), env).store;
    HandledRuns(t, WakeEvent(t, run), env);
    if Handled(t, WakeEvent(t, run), env).committed {
      RefusedPassFails(t, run, f, now);
      RefusalAhead(t, run, f);
      FlowOfEnv(t, run, env);
      var flow := FlowFor(t, run, f);
      var p :| Refuses(t, run, p) && Reaches(flow, Segment(flow, StartOf(t, run), 0).next, p);
      assert FlowFor(u, run, f) == flow;
      assert Refuses(u, run, p);
    } else {
      AsStuck(t, u, run, f);
    }
  }

  lemma {:induction false} AsStuck(t: Store, u: Store, run: nat, f: Condition.Formats)
    requires Resumable(t, run) && Stuck(t, run, f)
    requires u.runs == t.runs && u.workflows == t.workflows && u.matrix == t.matrix
    ensures Stuck(u, run, f)
  {
    assert FlowFor(u, run, f) == FlowFor(t, run, f);
    if MeetsRefusal(t, run, f) {
      var p :| Refuses(t, run, p) && Reaches(FlowFor(t, run, f), StartOf(t, run), p);
      assert Refuses(u, run, p);
    }
  }

  lemma {:induction false} StuckStays(s: Store, run: nat, f: Condition.Formats, times: seq<int>)
    requires Resumable(s, run) && Stuck(s, run, f)
    ensures Impeded(s, Woken(s, run, f, times), run, f)
  {
    if times != [] {
      StuckStays(s, run, f, times[..|times| - 1]);
      ImpededStays(s, Woken(s, run, f, times[..|times| - 1]), run, f, times[|times| - 1]);
    }
  }

  lemma {:induction false} StuckRunsForEver(s: Store, run: nat, f: Condition.Formats)
    requires Resumable(s, run) && Stuck(s, run, f)
    ensures StaysRunning(s, run, f) && !Eventually(s, run, f, Completed) && !Eventually(s, run, f, Failed)
  {
    forall times: seq<int>
      ensures run in Woken(s, run, f, times).runs && Woken(s, run, f, times).runs[run].status == Running
    {
      StuckStays(s, run, f, times);
    }
    forall n: nat, status | AlwaysAfter(s, run, f, n, status) ensures status == Running {
      var times: seq<int> := seq(n + 1, i => 0);
      assert Woken(s, run, f, times).runs[run].status == status;
    }
  }

  // ---- The four fates ----

  lemma {:induction false} UnstuckTransparency(s: Store, run: nat, f: Condition.Formats)
    requires Resumable(s, run) && !Stuck(s, run, f)
    ensures Eventually(s, run, f, Completed) <==> ErasedEnds(FlowFor(s, run, f), StartOf(s, run))
    ensures Eventually(s, run, f, Failed) <==> EntersDelayFreeCycle(FlowFor(s, run, f), StartOf(s, run))
    ensures StaysRunning(s, run, f) <==> EntersDelayCycle(FlowFor(s, run, f), StartOf(s, run))
  {
    DelayTransparency(FlowFor(s, run, f), StartOf(s, run));
    EventuallyCompleted(s, run, f);
    EventuallyFailed(s, run, f);
    NeverSettles(s, run, f);
  }

  // Woken as often as it pauses, at whatever times, a run is stuck for ever if its steps do not decode or the walk with
  // delays erased comes to a step the notification table refuses. Otherwise it completes iff that walk reaches the end,
  // is failed by the guard iff the walk enters a cycle without a delay, and stays running through any number of
  // wake-ups iff its cycle contains a delay.
  lemma {:induction false} RunTransparency(s: Store, run: nat, f: Condition.Formats)
    requires Resumable(s, run)
    ensures Eventually(s, run, f, Completed) <==>
            !Stuck(s, run, f) && ErasedEnds(FlowFor(s, run, f), StartOf(s, run))
    ensures Eventually(s, run, f, Failed) <==>
            !Stuck(s, run, f) && EntersDelayFreeCycle(FlowFor(s, run, f), StartOf(s, run))
    ensures StaysRunning(s, run, f) <==>
            Stuck(s, run, f) || EntersDelayCycle(FlowFor(s, run, f), StartOf(s, run))
  {
    if Stuck(s, run, f) {
      StuckRunsForEver(s, run, f);
    } else {
      UnstuckTransparency(s, run, f);
    }
  }
}
