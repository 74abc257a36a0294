// Walking a workflow: positions, the erased walk, one engine pass, and the chain of passes that
// pauses and wake-ups produce. A workflow is seen here as its successor table only.
module Walk {
  import opened Text

  datatype Mark = Channel | Delay | Plain

  // What a step contributes to control flow: where control goes next, and what it is.
  datatype Node = Node(next: nat, mark: Mark)

  type Flow = seq<Node>

  predicate IsDelay(f: Flow, i: nat) {
    i < |f| && f[i].mark.Delay?
  }

  // Where one engine pass stops on its own: past the end, or at a delay.
  predicate Stops(f: Flow, i: nat) {
    i >= |f| || IsDelay(f, i)
  }

  function VisitOf(f: Flow, i: nat): seq<nat> {
    if i < |f| && f[i].mark.Channel? then [i] else []
  }

  function DelayOf(f: Flow, i: nat): seq<nat> {
    if IsDelay(f, i) then [i] else []
  }

  // ---- The erased walk: delays are plain jumps, positions past the end absorb ----

  function Jump(f: Flow, i: nat): nat {
    if i < |f| then f[i].next else i
  }

  // Position after k jumps from i.
  function At(f: Flow, i: nat, k: nat): nat {
    if k == 0 then i else Jump(f, At(f, i, k - 1))
  }

  // Channel steps met during the first k jumps, in order.
  function Trace(f: Flow, i: nat, k: nat): seq<nat> {
    if k == 0 then [] else Trace(f, i, k - 1) + VisitOf(f, At(f, i, k - 1))
  }

  // Delays met during the first k jumps, in order.
  function Pauses(f: Flow, i: nat, k: nat): seq<nat> {
    if k == 0 then [] else Pauses(f, i, k - 1) + DelayOf(f, At(f, i, k - 1))
  }

  lemma {:induction false} AtAdd(f: Flow, i: nat, a: nat, b: nat)
    ensures At(f, i, a + b) == At(f, At(f, i, a), b)
  {
    if b > 0 {
      AtAdd(f, i, a, b - 1);
    }
  }

  lemma {:induction false} TraceAdd(f: Flow, i: nat, a: nat, b: nat)
    ensures Trace(f, i, a + b) == Trace(f, i, a) + Trace(f, At(f, i, a), b)
  {
    if b > 0 {
      TraceAdd(f, i, a, b - 1);
      AtAdd(f, i, a, b - 1);
      Regroup(Trace(f, i, a), Trace(f, At(f, i, a), b - 1), VisitOf(f, At(f, i, a + b - 1)));
    }
  }

  lemma {:induction false} PausesAdd(f: Flow, i: nat, a: nat, b: nat)
    ensures Pauses(f, i, a + b) == Pauses(f, i, a) + Pauses(f, At(f, i, a), b)
  {
    if b > 0 {
      PausesAdd(f, i, a, b - 1);
      AtAdd(f, i, a, b - 1);
      Regroup(Pauses(f, i, a), Pauses(f, At(f, i, a), b - 1), DelayOf(f, At(f, i, a + b - 1)));
    }
  }

  lemma {:induction false} EndAbsorbs(f: Flow, i: nat, k: nat, j: nat)
    requires At(f, i, k) >= |f| && j >= k
    ensures At(f, i, j) == At(f, i, k)
    ensures Trace(f, i, j) == Trace(f, i, k)
    ensures Pauses(f, i, j) == Pauses(f, i, k)
  {
    if j > k {
      EndAbsorbs(f, i, k, j - 1);
    }
  }

  // ---- Pigeonhole ----

  function UpTo(n: nat): (r: set<nat>)
    ensures |r| == n
    ensures forall x: nat :: x in r <==> x < n
  {
    if n == 0 then {} else UpTo(n - 1) + {n - 1}
  }

  function Elements<T(!new)>(s: seq<T>): (r: set<T>)
    ensures forall x :: x in r <==> x in s
  {
    if s == [] then {} else Elements(s[1..]) + {s[0]}
  }

  lemma {:induction false} DistinctSize<T(!new)>(s: seq<T>)
    requires forall j, k :: 0 <= j < k < |s| ==> s[j] != s[k]
    ensures |Elements(s)| == |s|
  {
    if s != [] {
      DistinctSize(s[1..]);
      assert s[0] !in s[1..];
    }
  }

  lemma SubsetSize<T>(a: set<T>, b: set<T>)
    requires a <= b
    ensures |a| <= |b|
  {
    assert b == a + (b - a);
  }

  lemma DistinctFits(s: seq<nat>, range: set<nat>)
    requires forall j :: 0 <= j < |s| ==> s[j] in range
    requires forall j, k :: 0 <= j < k < |s| ==> s[j] != s[k]
    ensures |s| <= |range|
  {
    DistinctSize(s);
    SubsetSize(Elements(s), range);
  }

  // A walk that stays inside the workflow for n jumps has come back to an earlier position.
  lemma Revisit(f: Flow, i: nat) returns (m: nat, q: nat)
    requires forall j :: 0 <= j <= |f| ==> At(f, i, j) < |f|
    ensures q > 0 && m + q <= |f| && At(f, i, m) == At(f, i, m + q)
  {
    var path := seq(|f| + 1, k requires 0 <= k => At(f, i, k));
    if forall j, k :: 0 <= j < k < |path| ==> path[j] != path[k] {
      DistinctFits(path, UpTo(|f|));
    }
    var j, k :| 0 <= j < k < |path| && path[j] == path[k];
    m, q := j, k - j;
  }

  // Determinism: once a position repeats, every later position is one of the cycle's.
  lemma CycleIndex(f: Flow, i: nat, m: nat, q: nat, j: nat) returns (c: nat)
    requires q > 0 && At(f, i, m) == At(f, i, m + q) && j >= m
    ensures m <= c < m + q && c <= j && At(f, i, j) == At(f, i, c)
  {
    c := j;
    while c >= m + q
      invariant m <= c <= j && At(f, i, c) == At(f, i, j)
    {
      AtAdd(f, i, m + q, c - m - q);
      AtAdd(f, i, m, c - m - q);
      c := c - q;
    }
  }

  // A cycle position comes back arbitrarily late.
  lemma {:induction false} Recurs(f: Flow, i: nat, m: nat, q: nat, j: nat, bound: nat) returns (later: nat)
    requires q > 0 && At(f, i, m) == At(f, i, m + q) && j >= m
    ensures later >= bound && later >= j && At(f, i, later) == At(f, i, j)
    decreases bound - j
  {
    later := j;
    if j < bound {
      AtAdd(f, i, m, j - m);
      AtAdd(f, i, m + q, j - m);
      assert m + q + (j - m) == j + q;
      later := Recurs(f, i, m, q, j + q, bound);
    }
  }

  // No stop within the first n jumps means no stop ever.
  lemma NoStopWithinNIsForever(f: Flow, i: nat, j: nat)
    requires forall k :: 0 <= k <= |f| ==> !Stops(f, At(f, i, k))
    ensures !Stops(f, At(f, i, j))
  {
    if j > |f| {
      var m, q := Revisit(f, i);
      var c := CycleIndex(f, i, m, q, j);
    }
  }

  // ---- One engine pass ----

  function MaxIterations(f: Flow): nat {
    |f| * 2 + 10
  }

  datatype Outcome =
    | Finished(visits: seq<nat>)
    | Paused(visits: seq<nat>, at: nat, next: nat)
    | GuardTripped(visits: seq<nat>)

  function Prepend(v: seq<nat>, o: Outcome): Outcome {
    match o
    case Finished(w) => Finished(v + w)
    case Paused(w, at, next) => Paused(v + w, at, next)
    case GuardTripped(w) => GuardTripped(v + w)
  }

  // The engine's loop with its iteration counter, its effects erased to the channel steps visited.
  function Segment(f: Flow, i: nat, visited: nat): Outcome
    decreases MaxIterations(f) + 1 - visited
  {
    if i >= |f| then Finished([])
    else if visited > MaxIterations(f) then GuardTripped([])
    else if IsDelay(f, i) then Paused([], i, f[i].next)
    else Prepend(VisitOf(f, i), Segment(f, f[i].next, visited + 1))
  }

  lemma {:induction false} SegmentPauseInside(f: Flow, i: nat, visited: nat)
    ensures Segment(f, i, visited).Paused? ==> Segment(f, i, visited).at < |f|
    decreases MaxIterations(f) + 1 - visited
  {
    if i < |f| && visited <= MaxIterations(f) && !IsDelay(f, i) {
      SegmentPauseInside(f, f[i].next, visited + 1);
    }
  }

  lemma {:induction false} StepFirst(f: Flow, i: nat, k: nat)
    requires k > 0
    ensures At(f, i, k) == At(f, Jump(f, i), k - 1)
  {
    if k > 1 {
      StepFirst(f, i, k - 1);
    } else {
      assert At(f, i, 0) == i;
    }
  }

  lemma {:induction false} TraceFirst(f: Flow, i: nat, k: nat)
    requires k > 0
    ensures Trace(f, i, k) == VisitOf(f, i) + Trace(f, Jump(f, i), k - 1)
  {
    if k > 1 {
      TraceFirst(f, i, k - 1);
      StepFirst(f, i, k - 1);
    } else {
      assert At(f, i, 0) == i && Trace(f, i, 0) == [];
    }
  }

  // How a pass that stops after k jumps from i ends.
  function StopOutcome(f: Flow, i: nat, k: nat): Outcome {
    var at := At(f, i, k);
    if at >= |f| then Finished(Trace(f, i, k)) else Paused(Trace(f, i, k), at, f[at].next)
  }

  // The pass ends where the erased walk first stops, provided the counter lasts that long.
  lemma {:induction false} SegmentReachesStop(f: Flow, i: nat, visited: nat, k: nat)
    requires visited + k <= MaxIterations(f)
    requires forall j :: 0 <= j < k ==> !Stops(f, At(f, i, j))
    requires Stops(f, At(f, i, k))
    ensures Segment(f, i, visited) == StopOutcome(f, i, k)
    decreases k
  {
    assert At(f, i, 0) == i;
    if k > 0 {
      assert !Stops(f, i);
      var i' := Jump(f, i);
      forall j | 0 <= j < k - 1
        ensures !Stops(f, At(f, i', j))
      {
        StepFirst(f, i, j + 1);
      }
      StepFirst(f, i, k);
      TraceFirst(f, i, k);
      SegmentReachesStop(f, i', visited + 1, k - 1);
    }
  }

  lemma {:induction false} SegmentTrips(f: Flow, i: nat, visited: nat)
    requires visited <= MaxIterations(f) + 1
    requires forall j :: 0 <= j <= MaxIterations(f) + 1 - visited ==> !Stops(f, At(f, i, j))
    ensures Segment(f, i, visited) == GuardTripped(Trace(f, i, MaxIterations(f) + 1 - visited))
    decreases MaxIterations(f) + 1 - visited
  {
    assert At(f, i, 0) == i;
    if visited <= MaxIterations(f) {
      TraceFirst(f, i, MaxIterations(f) + 1 - visited);
      forall j | 0 <= j <= MaxIterations(f) - visited
        ensures !Stops(f, At(f, Jump(f, i), j))
      {
        StepFirst(f, i, j + 1);
      }
      SegmentTrips(f, Jump(f, i), visited + 1);
    }
  }

  lemma FirstStop(f: Flow, i: nat, bound: nat) returns (k: nat)
    requires Stops(f, At(f, i, bound))
    ensures k <= bound && Stops(f, At(f, i, k))
    ensures forall j :: 0 <= j < k ==> !Stops(f, At(f, i, j))
  {
    k := 0;
    while !Stops(f, At(f, i, k))
      invariant k <= bound
      invariant forall j :: 0 <= j < k ==> !Stops(f, At(f, i, j))
      decreases bound - k
    {
      k := k + 1;
    }
  }

  ghost predicate NeverStops(f: Flow, i: nat) {
    forall j: nat :: !Stops(f, At(f, i, j))
  }

  // A stop, if there is one, comes within n jumps.
  lemma StopComesEarly(f: Flow, i: nat) returns (k: nat)
    requires !NeverStops(f, i)
    ensures k <= |f| && Stops(f, At(f, i, k))
    ensures forall j :: 0 <= j < k ==> !Stops(f, At(f, i, j))
  {
    if forall j :: 0 <= j <= |f| ==> !Stops(f, At(f, i, j)) {
      forall j: nat ensures !Stops(f, At(f, i, j)) {
        NoStopWithinNIsForever(f, i, j);
      }
    }
    var j :| 0 <= j <= |f| && Stops(f, At(f, i, j));
    k := FirstStop(f, i, j);
  }

  // The cycle guard fires exactly on the passes that would otherwise never stop.
  lemma GuardExact(f: Flow, i: nat)
    ensures Segment(f, i, 0).GuardTripped? <==> NeverStops(f, i)
  {
    if NeverStops(f, i) {
      SegmentTrips(f, i, 0);
    } else {
      var k := StopComesEarly(f, i);
      SegmentReachesStop(f, i, 0, k);
    }
  }

  // ---- What a pass visits ----

  ghost predicate Reaches(f: Flow, i: nat, p: nat) {
    exists k: nat :: At(f, i, k) == p
  }

  predicate IsChannel(f: Flow, i: nat) {
    i < |f| && f[i].mark.Channel?
  }

  lemma {:induction false} TraceHas(f: Flow, i: nat, k: nat, j: nat)
    requires j < k && IsChannel(f, At(f, i, j))
    ensures At(f, i, j) in Trace(f, i, k)
  {
    if j < k - 1 {
      TraceHas(f, i, k - 1, j);
    }
  }

  lemma {:induction false} TraceReached(f: Flow, i: nat, k: nat, p: nat)
    requires p in Trace(f, i, k)
    ensures IsChannel(f, p) && Reaches(f, i, p)
  {
    if p in Trace(f, i, k - 1) {
      TraceReached(f, i, k - 1, p);
    } else {
      assert p == At(f, i, k - 1);
    }
  }

  // A walk that never stops meets all it ever meets within n jumps.
  lemma MetEarly(f: Flow, i: nat, k: nat) returns (j: nat)
    requires NeverStops(f, i)
    ensures j <= |f| && At(f, i, j) == At(f, i, k)
  {
    j := k;
    if k > |f| {
      var m, q := Revisit(f, i);
      j := CycleIndex(f, i, m, q, k);
    }
  }

  // The visits of a pass are a stretch of the erased walk's trace.
  lemma PassTrace(f: Flow, i: nat) returns (k: nat)
    ensures Segment(f, i, 0).visits == Trace(f, i, k)
    ensures Segment(f, i, 0).GuardTripped? ==> NeverStops(f, i) && k > |f|
    ensures !Segment(f, i, 0).GuardTripped? ==> Segment(f, i, 0) == StopOutcome(f, i, k) && Stops(f, At(f, i, k))
  {
    GuardExact(f, i);
    if NeverStops(f, i) {
      k := MaxIterations(f) + 1;
      SegmentTrips(f, i, 0);
    } else {
      k := StopComesEarly(f, i);
      SegmentReachesStop(f, i, 0, k);
    }
  }

  // Every channel step the erased walk ever reaches is visited by this pass, or reached by the next ones.
  lemma PassCovers(f: Flow, i: nat, p: nat)
    requires Reaches(f, i, p) && IsChannel(f, p)
    ensures var o := Segment(f, i, 0);
            p in o.visits || (o.Paused? && Reaches(f, o.next, p))
  {
    var j: nat :| At(f, i, j) == p;
    var k := PassTrace(f, i);
    if NeverStops(f, i) {
      j := MetEarly(f, i, j);
    }
    if j < k {
      TraceHas(f, i, k, j);
    } else if At(f, i, k) >= |f| {
      EndAbsorbs(f, i, k, j);
    } else {
      AtAdd(f, i, k + 1, j - k - 1);
      assert At(f, i, k + 1) == Segment(f, i, 0).next;
    }
  }

  // And a pass visits nothing else.
  lemma PassVisitsReached(f: Flow, i: nat, p: nat)
    requires p in Segment(f, i, 0).visits
    ensures IsChannel(f, p) && Reaches(f, i, p)
  {
    var k := PassTrace(f, i);
    TraceReached(f, i, k, p);
  }

  lemma PassLeadsOn(f: Flow, i: nat)
    requires Segment(f, i, 0).Paused?
    ensures Reaches(f, i, Segment(f, i, 0).next)
  {
    var k := PassTrace(f, i);
    assert At(f, i, k + 1) == Segment(f, i, 0).next;
  }

  lemma ReachesOn(f: Flow, i: nat, k: nat, p: nat)
    requires Reaches(f, At(f, i, k), p)
    ensures Reaches(f, i, p)
  {
    var j: nat :| At(f, At(f, i, k), j) == p;
    AtAdd(f, i, k, j);
    assert At(f, i, k + j) == p;
  }

  // ---- Whole runs: a first pass and then one pass per wake-up ----

  datatype RunState =
    | Waiting(next: nat, visits: seq<nat>, pausedAt: seq<nat>)
    | Done(visits: seq<nat>, pausedAt: seq<nat>)
    | Cyclic(visits: seq<nat>, pausedAt: seq<nat>)

  function Absorb(o: Outcome, visits: seq<nat>, pausedAt: seq<nat>): RunState {
    match o
    case Finished(v) => Done(visits + v, pausedAt)
    case Paused(v, at, next) => Waiting(next, visits + v, pausedAt + [at])
    case GuardTripped(v) => Cyclic(visits + v, pausedAt)
  }

  // State of the run after the first pass and the given number of resumptions.
  function Play(f: Flow, start: nat, resumes: nat): RunState {
    if resumes == 0 then Absorb(Segment(f, start, 0), [], [])
    else
      match Play(f, start, resumes - 1)
      case Waiting(next, v, d) => Absorb(Segment(f, next, 0), v, d)
      case other => other
  }

  // What m jumps of the erased walk say about a run state.
  ghost predicate Explains(f: Flow, start: nat, m: nat, s: RunState) {
    && s.pausedAt == Pauses(f, start, m)
    && match s
       case Waiting(next, v, _) => At(f, start, m) == next && v == Trace(f, start, m)
       case Done(v, _) => At(f, start, m) >= |f| && v == Trace(f, start, m)
       case Cyclic(_, _) => NeverStops(f, At(f, start, m))
  }

  lemma {:induction false} QuietPrefix(f: Flow, i: nat, k: nat)
    requires forall j :: 0 <= j < k ==> !Stops(f, At(f, i, j))
    ensures Pauses(f, i, k) == []
  {
    if k > 0 {
      QuietPrefix(f, i, k - 1);
    }
  }

  // Jumps that meet no delay extend the trace and nothing else.
  lemma {:induction false} QuietJumps(f: Flow, start: nat, m: nat, k: nat)
    requires forall j :: 0 <= j < k ==> !Stops(f, At(f, At(f, start, m), j))
    ensures At(f, start, m + k) == At(f, At(f, start, m), k)
    ensures Trace(f, start, m + k) == Trace(f, start, m) + Trace(f, At(f, start, m), k)
    ensures Pauses(f, start, m + k) == Pauses(f, start, m)
  {
    QuietPrefix(f, At(f, start, m), k);
    AtAdd(f, start, m, k);
    TraceAdd(f, start, m, k);
    PausesAdd(f, start, m, k);
  }

  lemma DelayJump(f: Flow, start: nat, m: nat)
    requires IsDelay(f, At(f, start, m))
    ensures At(f, start, m + 1) == f[At(f, start, m)].next
    ensures Trace(f, start, m + 1) == Trace(f, start, m)
    ensures Pauses(f, start, m + 1) == Pauses(f, start, m) + [At(f, start, m)]
  {
  }

  lemma EndExplained(f: Flow, start: nat, n: nat, visits: seq<nat>, pausedAt: seq<nat>)
    requires At(f, start, n) >= |f| && Trace(f, start, n) == visits && Pauses(f, start, n) == pausedAt
    ensures Explains(f, start, n, Done(visits, pausedAt))
  {
  }

  lemma DelayExplained(f: Flow, start: nat, n: nat, visits: seq<nat>, pausedAt: seq<nat>)
    requires IsDelay(f, At(f, start, n)) && Trace(f, start, n) == visits && Pauses(f, start, n) == pausedAt
    ensures Explains(f, start, n + 1, Waiting(f[At(f, start, n)].next, visits, pausedAt + [At(f, start, n)]))
  {
    DelayJump(f, start, n);
  }

  // It is explained by those jumps, and one more if it stopped at a delay.
  lemma StopExplained(f: Flow, start: nat, m: nat, k: nat, i: nat) returns (m': nat)
    requires i == At(f, start, m) && At(f, start, m + k) == At(f, i, k) && Stops(f, At(f, i, k))
    requires Trace(f, start, m + k) == Trace(f, start, m) + Trace(f, i, k)
    requires Pauses(f, start, m + k) == Pauses(f, start, m)
    ensures Explains(f, start, m', Absorb(StopOutcome(f, i, k), Trace(f, start, m), Pauses(f, start, m)))
  {
    var visits, pausedAt := Trace(f, start, m) + Trace(f, i, k), Pauses(f, start, m);
    if At(f, i, k) < |f| {
      m' := m + k + 1;
      DelayExplained(f, start, m + k, visits, pausedAt);
    } else {
      m' := m + k;
      EndExplained(f, start, m + k, visits, pausedAt);
    }
  }

  // One pass from where m jumps lead is explained by some more jumps.
  lemma {:induction false} PassExplained(f: Flow, start: nat, m: nat) returns (m': nat)
    ensures Explains(f, start, m', Absorb(Segment(f, At(f, start, m), 0), Trace(f, start, m), Pauses(f, start, m)))
  {
    var i := At(f, start, m);
    GuardExact(f, i);
    if NeverStops(f, i) {
      m' := m;
    } else {
      var k := StopComesEarly(f, i);
      SegmentReachesStop(f, i, 0, k);
      assert Segment(f, i, 0) == StopOutcome(f, i, k);
      QuietJumps(f, start, m, k);
      m' := StopExplained(f, start, m, k, i);
    }
  }

  lemma {:induction false} PlayExplained(f: Flow, start: nat, resumes: nat) returns (m: nat)
    ensures Explains(f, start, m, Play(f, start, resumes))
    ensures Play(f, start, resumes).Waiting? ==> |Play(f, start, resumes).pausedAt| == resumes + 1
  {
    if resumes == 0 {
      m := PassExplained(f, start, 0);
    } else {
      m := PlayExplained(f, start, resumes - 1);
      if Play(f, start, resumes - 1).Waiting? {
        m := PassExplained(f, start, m);
      }
    }
  }

  lemma {:induction false} PausesBound(f: Flow, i: nat, k: nat)
    ensures |Pauses(f, i, k)| <= k
  {
    if k > 0 {
      PausesBound(f, i, k - 1);
    }
  }

  lemma PausesMonotone(f: Flow, i: nat, a: nat, b: nat)
    requires a <= b
    ensures |Pauses(f, i, a)| <= |Pauses(f, i, b)|
  {
    PausesAdd(f, i, a, b - a);
  }

  // ---- The trichotomy ----

  ghost predicate ErasedEnds(f: Flow, i: nat) {
    exists k: nat :: At(f, i, k) >= |f|
  }

  // Positions m .. m+q-1 of the erased walk form a cycle.
  ghost predicate IsCycle(f: Flow, i: nat, m: nat, q: nat) {
    q > 0 && At(f, i, m) == At(f, i, m + q) && At(f, i, m) < |f|
  }

  ghost predicate HasDelay(f: Flow, i: nat, m: nat, q: nat) {
    exists j: nat :: m <= j < m + q && IsDelay(f, At(f, i, j))
  }

  ghost predicate EntersDelayFreeCycle(f: Flow, i: nat) {
    exists m: nat, q: nat :: IsCycle(f, i, m, q) && !HasDelay(f, i, m, q)
  }

  ghost predicate EntersDelayCycle(f: Flow, i: nat) {
    exists m: nat, q: nat :: IsCycle(f, i, m, q) && HasDelay(f, i, m, q)
  }

  ghost predicate Completes(f: Flow, i: nat) {
    exists r: nat :: Play(f, i, r).Done?
  }

  ghost predicate Fails(f: Flow, i: nat) {
    exists r: nat :: Play(f, i, r).Cyclic?
  }

  ghost predicate RunsForever(f: Flow, i: nat) {
    forall r: nat :: Play(f, i, r).Waiting?
  }

  lemma CycleNeverEnds(f: Flow, i: nat, m: nat, q: nat, k: nat)
    requires IsCycle(f, i, m, q)
    ensures At(f, i, k) < |f|
  {
    if At(f, i, k) >= |f| {
      var later := Recurs(f, i, m, q, m, k);
      EndAbsorbs(f, i, k, later);
    }
  }

  lemma DelayFreeCycleStep(f: Flow, i: nat, m: nat, q: nat, j: nat)
    requires IsCycle(f, i, m, q) && !HasDelay(f, i, m, q)
    ensures !Stops(f, At(f, At(f, i, m), j))
  {
    AtAdd(f, i, m, j);
    CycleNeverEnds(f, i, m, q, m + j);
    var c := CycleIndex(f, i, m, q, m + j);
  }

  lemma {:induction false} DelayFreeCycleNeverStops(f: Flow, i: nat, m: nat, q: nat)
    requires IsCycle(f, i, m, q) && !HasDelay(f, i, m, q)
    ensures NeverStops(f, At(f, i, m))
  {
    forall j: nat ensures !Stops(f, At(f, At(f, i, m), j)) {
      DelayFreeCycleStep(f, i, m, q, j);
    }
  }

  lemma NeverStopsHasDelayFreeCycle(f: Flow, i: nat, m: nat)
    requires NeverStops(f, At(f, i, m))
    ensures EntersDelayFreeCycle(f, i)
  {
    forall j: nat | j >= m ensures !Stops(f, At(f, i, j)) {
      AtAdd(f, i, m, j - m);
    }
    var i' := At(f, i, m);
    var m', q := Revisit(f, i');
    AtAdd(f, i, m, m');
    AtAdd(f, i, m, m' + q);
    assert m + (m' + q) == m + m' + q;
    assert !Stops(f, At(f, i, m + m'));
    assert IsCycle(f, i, m + m', q) && !HasDelay(f, i, m + m', q);
  }

  // A cycle through a delay keeps every pass stopping.
  lemma DelayCycleAlwaysStops(f: Flow, i: nat, m: nat, q: nat, from: nat)
    requires IsCycle(f, i, m, q) && HasDelay(f, i, m, q)
    ensures !NeverStops(f, At(f, i, from))
  {
    var j: nat :| m <= j < m + q && IsDelay(f, At(f, i, j));
    var later := Recurs(f, i, m, q, j, from);
    AtAdd(f, i, from, later - from);
    assert Stops(f, At(f, At(f, i, from), later - from));
  }

  lemma ErasedTrichotomy(f: Flow, i: nat)
    ensures ErasedEnds(f, i) || EntersDelayFreeCycle(f, i) || EntersDelayCycle(f, i)
    ensures !(ErasedEnds(f, i) && EntersDelayFreeCycle(f, i))
    ensures !(ErasedEnds(f, i) && EntersDelayCycle(f, i))
    ensures !(EntersDelayFreeCycle(f, i) && EntersDelayCycle(f, i))
  {
    if !ErasedEnds(f, i) {
      var m, q := Revisit(f, i);
      assert IsCycle(f, i, m, q);
    }
    forall m: nat, q: nat, k: nat | IsCycle(f, i, m, q) ensures At(f, i, k) < |f| {
      CycleNeverEnds(f, i, m, q, k);
    }
    if EntersDelayFreeCycle(f, i) && EntersDelayCycle(f, i) {
      var m: nat, q: nat :| IsCycle(f, i, m, q) && !HasDelay(f, i, m, q);
      DelayFreeCycleNeverStops(f, i, m, q);
      var m': nat, q': nat :| IsCycle(f, i, m', q') && HasDelay(f, i, m', q');
      DelayCycleAlwaysStops(f, i, m', q', m);
    }
  }

  lemma OutcomeExplained(f: Flow, i: nat)
    ensures Completes(f, i) ==> ErasedEnds(f, i)
    ensures Fails(f, i) ==> EntersDelayFreeCycle(f, i)
  {
    if Completes(f, i) {
      var r: nat :| Play(f, i, r).Done?;
      var m := PlayExplained(f, i, r);
    }
    if Fails(f, i) {
      var r: nat :| Play(f, i, r).Cyclic?;
      var m := PlayExplained(f, i, r);
      NeverStopsHasDelayFreeCycle(f, i, m);
    }
  }

  // Past a point where no further delay is met, only boundedly many delays are met in all.
  lemma QuietTail(f: Flow, i: nat, k: nat, m: nat)
    requires At(f, i, k) >= |f| || NeverStops(f, At(f, i, k))
    ensures |Pauses(f, i, m)| <= k
  {
    PausesBound(f, i, k);
    if m <= k {
      PausesMonotone(f, i, m, k);
    } else if At(f, i, k) >= |f| {
      EndAbsorbs(f, i, k, m);
    } else {
      NoMorePauses(f, i, k, m);
    }
  }

  lemma NoMorePauses(f: Flow, i: nat, k: nat, m: nat)
    requires NeverStops(f, At(f, i, k)) && k <= m
    ensures |Pauses(f, i, m)| == |Pauses(f, i, k)|
  {
    PausesAdd(f, i, k, m - k);
    QuietPrefix(f, At(f, i, k), m - k);
  }

  lemma ForeverOnlyIfDelayCycle(f: Flow, i: nat)
    requires RunsForever(f, i)
    ensures EntersDelayCycle(f, i)
  {
    ErasedTrichotomy(f, i);
    if !EntersDelayCycle(f, i) {
      var k: nat;
      if ErasedEnds(f, i) {
        k :| At(f, i, k) >= |f|;
      } else {
        var q: nat;
        k, q :| IsCycle(f, i, k, q) && !HasDelay(f, i, k, q);
        DelayFreeCycleNeverStops(f, i, k, q);
      }
      var m := PlayExplained(f, i, k);
      QuietTail(f, i, k, m);
    }
  }

  // Pausing and resuming is transparent: the paused-and-resumed run completes, fails on the
  // guard or stays running according to how the walk with delays erased behaves.
  lemma DelayTransparency(f: Flow, i: nat)
    ensures Completes(f, i) <==> ErasedEnds(f, i)
    ensures Fails(f, i) <==> EntersDelayFreeCycle(f, i)
    ensures RunsForever(f, i) <==> EntersDelayCycle(f, i)
  {
    ErasedTrichotomy(f, i);
    OutcomeExplained(f, i);
    if RunsForever(f, i) {
      ForeverOnlyIfDelayCycle(f, i);
      forall r: nat ensures !Play(f, i, r).Done? && !Play(f, i, r).Cyclic? {
        assert Play(f, i, r).Waiting?;
      }
    } else {
      var r: nat :| !Play(f, i, r).Waiting?;
      assert Completes(f, i) || Fails(f, i);
    }
  }

  lemma ErasedNeverRepeats(f: Flow, i: nat, k: nat, a: nat, b: nat)
    requires At(f, i, k) >= |f| && a < b && At(f, i, b) < |f|
    ensures At(f, i, a) != At(f, i, b)
  {
    if At(f, i, a) == At(f, i, b) {
      assert a + (b - a) == b;
      assert IsCycle(f, i, a, b - a);
      CycleNeverEnds(f, i, a, b - a, k);
    }
  }

  // A completed run visited exactly the channel steps of the erased walk, in order, and paused at
  // exactly its delays; the walk met no step twice.
  lemma CompletedVisits(f: Flow, i: nat, r: nat, k: nat)
    requires Play(f, i, r).Done? && At(f, i, k) >= |f|
    ensures Play(f, i, r).visits == Trace(f, i, k)
    ensures Play(f, i, r).pausedAt == Pauses(f, i, k)
    ensures forall a, b :: 0 <= a < b && At(f, i, b) < |f| ==> At(f, i, a) != At(f, i, b)
  {
    var m := PlayExplained(f, i, r);
    if m < k { EndAbsorbs(f, i, m, k); } else { EndAbsorbs(f, i, k, m); }
    forall a, b | 0 <= a < b && At(f, i, b) < |f| ensures At(f, i, a) != At(f, i, b) {
      ErasedNeverRepeats(f, i, k, a, b);
    }
  }

  // ---- Forward-only workflows ----

  ghost predicate Forward(f: Flow) {
    forall i :: 0 <= i < |f| ==> f[i].next > i
  }

  predicate StrictlyIncreasing(s: seq<nat>) {
    forall a, b :: 0 <= a < b < |s| ==> s[a] < s[b]
  }

  ghost predicate DelaysBelow(f: Flow, s: seq<nat>, bound: nat) {
    forall a :: 0 <= a < |s| ==> s[a] < bound && IsDelay(f, s[a])
  }

  // Each jump brings the walk strictly closer to the end, so no delay is met twice.
  lemma {:induction false} ForwardClimbs(f: Flow, start: nat, k: nat)
    requires Forward(f)
    ensures At(f, start, k) >= |f| || At(f, start, k) >= start + k
    ensures StrictlyIncreasing(Pauses(f, start, k))
    ensures DelaysBelow(f, Pauses(f, start, k), At(f, start, k))
  {
    if k > 0 {
      ForwardClimbs(f, start, k - 1);
    }
  }

  function DelaySteps(f: Flow): set<nat> {
    set i | i in UpTo(|f|) && IsDelay(f, i)
  }

  lemma ForwardPauseBound(f: Flow, start: nat, k: nat)
    requires Forward(f)
    ensures |Pauses(f, start, k)| <= |DelaySteps(f)|
  {
    ForwardClimbs(f, start, k);
    DistinctFits(Pauses(f, start, k), DelaySteps(f));
  }

  lemma {:induction false} FirstDone(f: Flow, i: nat, bound: nat) returns (r: nat)
    requires Play(f, i, bound).Done?
    ensures r <= bound && Play(f, i, r).Done? && (r > 0 ==> Play(f, i, r - 1).Waiting?)
  {
    r := bound;
    if bound > 0 && !Play(f, i, bound - 1).Waiting? {
      r := FirstDone(f, i, bound - 1);
    }
  }

  // From any start, a forward-only workflow ends completed within n jumps in total, pausing at most
  // once at each delay and so needing at most one wake-up per delay step.
  lemma ForwardRunCompletes(f: Flow, start: nat) returns (r: nat)
    requires Forward(f)
    ensures Play(f, start, r).Done? && r <= |DelaySteps(f)|
    ensures At(f, start, |f|) >= |f|
    ensures Play(f, start, r).visits == Trace(f, start, |f|)
    ensures StrictlyIncreasing(Play(f, start, r).pausedAt)
  {
    ForwardClimbs(f, start, |f|);
    DelayTransparency(f, start);
    var r0: nat :| Play(f, start, r0).Done?;
    r := FirstDone(f, start, r0);
    CompletedVisits(f, start, r, |f|);
    if r > 0 {
      var m := PlayExplained(f, start, r - 1);
      ForwardPauseBound(f, start, m);
    }
  }
}
