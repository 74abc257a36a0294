// Event intake under an Idempotency-Key: concurrent requests sharing one tenant and key, interleaved at
// every operation on the shared Redis key and on the queue.
module Idempotency {
  import opened Faults
  import Text

  // The Redis key: missing, claimed by a request in flight, or holding the cached response.
  datatype KeyState = Absent | Pending | Cached

  datatype Response = Unauthorized401 | Conflict409 | Replayed202 | Accepted202 | Invalid4xx | Failed500

  // Where a request stands between its atomic operations. `keyed` says it will release or fill the key,
  // `claimed` that its own SETNX created it.
  datatype Pc =
    | Idle
    | Duplicate
    | Working(claimed: bool, keyed: bool)
    | Releasing(claimed: bool, response: Response)
    | Caching(claimed: bool)
    | Answered(response: Response)

  // published: the requests whose event reached the queue, in order; releases: whether each DEL of the
  // key was issued by a request that had claimed it.
  datatype State = State(key: KeyState, pcs: seq<Pc>, published: seq<nat>, releases: seq<bool>)

  datatype Action =
    | SetNx(i: nat, reply: Fault)
    | Get(i: nat, redisUp: bool)
    | Reject(i: nat)
    | Publish(i: nat, fault: Fault)
    | Del(i: nat, redisUp: bool)
    | Store(i: nat, redisUp: bool)
    | Expire

  predicate Enabled(s: State, a: Action) {
    match a
    case SetNx(i, _) => i < |s.pcs| && s.pcs[i].Idle?
    case Get(i, _) => i < |s.pcs| && s.pcs[i].Duplicate?
    case Reject(i) => i < |s.pcs| && s.pcs[i].Working?
    case Publish(i, _) => i < |s.pcs| && s.pcs[i].Working?
    case Del(i, _) => i < |s.pcs| && s.pcs[i].Releasing?
    case Store(i, _) => i < |s.pcs| && s.pcs[i].Caching?
    case Expire => s.key != Absent
  }

  // A request that leaves without a cacheable response releases its key if it has one.
  function Abandon(pc: Pc, r: Response): Pc
    requires pc.Working?
  {
    if pc.keyed then Releasing(pc.claimed, r) else Answered(r)
  }

  function Step(s: State, a: Action): State
    requires Enabled(s, a)
  {
    match a
    case SetNx(i, reply) =>
      if reply != NoFault then
        var key := if reply == AckLost && s.key == Absent then Pending else s.key;
        s.(key := key, pcs := s.pcs[i := Working(false, false)])
      else if s.key == Absent then s.(key := Pending, pcs := s.pcs[i := Working(true, true)])
      else s.(pcs := s.pcs[i := Duplicate])
    case Get(i, up) =>
      if !up || s.key == Absent then s.(pcs := s.pcs[i := Working(false, true)])
      else s.(pcs := s.pcs[i := Answered(if s.key == Pending then Conflict409 else Replayed202)])
    case Reject(i) =>
      s.(pcs := s.pcs[i := Abandon(s.pcs[i], Invalid4xx)])
    case Publish(i, fault) =>
      var s1 := if fault == Rejected then s else s.(published := s.published + [i]);
      if fault != NoFault then s1.(pcs := s.pcs[i := Abandon(s.pcs[i], Failed500)])
      else s1.(pcs := s.pcs[i := if s.pcs[i].keyed then Caching(s.pcs[i].claimed) else Answered(Accepted202)])
    case Del(i, up) =>
      var s1 := s.(pcs := s.pcs[i := Answered(s.pcs[i].response)]);
      if up then s1.(key := Absent, releases := s.releases + [s.pcs[i].claimed]) else s1
    case Store(i, up) =>
      var s1 := s.(pcs := s.pcs[i := Answered(Accepted202)]);
      if up then s1.(key := Cached) else s1
    case Expire => s.(key := Absent)
  }

  function Initial(n: nat): State {
    State(Absent, seq(n, i => Idle), [], [])
  }

  function Advance(s: State, a: Action): State {
    if Enabled(s, a) then Step(s, a) else s
  }

  // The state after a schedule; operations that are not enabled are skipped.
  function Run(s: State, actions: seq<Action>): State {
    if actions == [] then s
    else Advance(Run(s, actions[..|actions| - 1]), actions[|actions| - 1])
  }

  // ---- What the guarantee needs ----

  // Redis answers, no key expires, and a publish that reports failure enqueued nothing.
  predicate Healthy(a: Action) {
    match a
    case SetNx(_, reply) => reply == NoFault
    case Get(_, up) => up
    case Del(_, up) => up
    case Store(_, up) => up
    case Publish(_, fault) => fault != AckLost
    case Reject(_) => true
    case Expire => false
  }

  ghost predicate AllHealthy(actions: seq<Action>) {
    forall k :: 0 <= k < |actions| ==> Healthy(actions[k])
  }

  // A request still free to publish should it find the key gone: about to try it, or refused by it and yet to read it.
  predicate Waiting(pc: Pc) {
    pc.Idle? || pc.Duplicate?
  }

  // No other request is waiting.
  ghost predicate Quiet(s: State, i: nat) {
    forall k :: 0 <= k < |s.pcs| && k != i ==> !Waiting(s.pcs[k])
  }

  // No other request is past the key and about to publish.
  ghost predicate NoOtherWorks(s: State, i: nat) {
    forall k :: 0 <= k < |s.pcs| && k != i ==> !s.pcs[k].Working?
  }

  ghost predicate NoneReleases(s: State) {
    forall k :: 0 <= k < |s.pcs| ==> !s.pcs[k].Releasing?
  }

  // No request yet to read the key has company.
  ghost predicate Harmless(s: State) {
    forall j, k :: 0 <= j < |s.pcs| && 0 <= k < |s.pcs| && j != k && s.pcs[j].Duplicate? ==> !Waiting(s.pcs[k])
  }

  ghost predicate AtMostOneWaits(s: State) {
    forall j, k :: 0 <= j < |s.pcs| && 0 <= k < |s.pcs| && j != k && Waiting(s.pcs[j]) ==> !Waiting(s.pcs[k])
  }

  // Request i may go on without the key: nothing is published or about to be, and if the key is missing or going to be
  // released, nobody else is waiting for it.
  ghost predicate MayFailOpen(s: State, i: nat, missing: bool) {
    && s.published == [] && NoOtherWorks(s, i)
    && (missing || !NoneReleases(s) ==> Quiet(s, i))
  }

  // The key may expire: whoever is waiting finds it gone.
  ghost predicate MayExpire(s: State) {
    if s.published != [] || exists i :: 0 <= i < |s.pcs| && s.pcs[i].Working? then
      forall k :: 0 <= k < |s.pcs| ==> !Waiting(s.pcs[k])
    else if !NoneReleases(s) then AtMostOneWaits(s)
    else Harmless(s)
  }

  // The steps that leave the guarantee standing, failures included.
  ghost predicate Tolerable(s: State, a: Action) {
    Enabled(s, a) ==>
      match a
      case SetNx(i, reply) => reply == NoFault || MayFailOpen(s, i, s.key == Absent && reply == Rejected)
      case Get(i, up) => up || MayFailOpen(s, i, false)
      case Publish(i, fault) => fault == AckLost ==> Quiet(s, i)
      case Del(_, up) => up ==> Harmless(s)
      case Store(_, _) => true
      case Reject(_) => true
      case Expire => MayExpire(s)
  }

  ghost predicate AllTolerable(s: State, actions: seq<Action>) {
    if actions == [] then true
    else
      var front, a := actions[..|actions| - 1], actions[|actions| - 1];
      AllTolerable(s, front) && Tolerable(Run(s, front), a)
  }

  lemma Extend(s: State, actions: seq<Action>, a: Action)
    ensures Run(s, actions + [a]) == Advance(Run(s, actions), a)
    ensures AllTolerable(s, actions + [a]) <==> AllTolerable(s, actions) && Tolerable(Run(s, actions), a)
    ensures Safe(s, actions + [a]) <==> Safe(s, actions) && Healthy(a) && NoRace(Run(s, actions), a)
  {
    assert (actions + [a])[..|actions|] == actions;
  }

  lemma {:induction false} RunConcat(s: State, a: seq<Action>, b: seq<Action>)
    ensures Run(s, a + b) == Run(Run(s, a), b)
  {
    if b == [] {
      assert a + b == a;
    } else {
      assert (a + b)[..|a + b| - 1] == a + b[..|b| - 1];
      RunConcat(s, a, b[..|b| - 1]);
    }
  }

  lemma {:induction false} TolerableConcat(s: State, a: seq<Action>, b: seq<Action>)
    requires AllTolerable(s, a) && AllTolerable(Run(s, a), b)
    ensures AllTolerable(s, a + b)
  {
    if b == [] {
      assert a + b == a;
    } else {
      var c := b[..|b| - 1];
      TolerableConcat(s, a, c);
      RunConcat(s, a, c);
      assert (a + b)[..|a + b| - 1] == a + c;
    }
  }

  // ---- The invariant ----

  predicate Active(pc: Pc) {
    pc.Working? || pc.Releasing? || pc.Caching?
  }

  // At most one request is past the duplicate check, and the key stands while it is or once it has published.
  ghost predicate Inv(s: State) {
    && (forall i :: 0 <= i < |s.pcs| && Active(s.pcs[i]) ==> s.key == Pending)
    && (forall i :: 0 <= i < |s.pcs| && s.pcs[i].Working? ==> s.pcs[i].keyed)
    && (forall i, j :: 0 <= i < j < |s.pcs| && Active(s.pcs[i]) ==> !Active(s.pcs[j]))
    && (forall i :: 0 <= i < |s.pcs| && s.pcs[i].Duplicate? ==> s.key != Absent)
    && (forall i :: 0 <= i < |s.pcs| && s.pcs[i].Caching? ==> s.published == [i])
    && (forall i :: 0 <= i < |s.pcs| && (s.pcs[i].Working? || s.pcs[i].Releasing?) ==> s.published == [])
    && (s.key == Absent ==> s.published == [])
    && (s.key == Cached ==> |s.published| == 1)
    && |s.published| <= 1
    && AnswersOk(s)
  }

  predicate NotAccepted(r: Response) {
    r != Accepted202 && r != Replayed202
  }

  // A fresh acceptance is its publisher's, a replay follows a publish, and a release follows neither.
  ghost predicate AnswersOk(s: State) {
    && (forall i :: 0 <= i < |s.pcs| && s.pcs[i] == Answered(Accepted202) ==> s.published == [i])
    && (forall i :: 0 <= i < |s.pcs| && s.pcs[i] == Answered(Replayed202) ==> |s.published| == 1)
    && (forall i :: 0 <= i < |s.pcs| && s.pcs[i].Releasing? ==> NotAccepted(s.pcs[i].response))
  }

  // The step leaves the key in force.
  predicate Plain(a: Action) {
    match a
    case SetNx(_, reply) => reply == NoFault
    case Get(_, up) => up
    case Publish(_, fault) => fault != AckLost
    case Del(_, up) => !up
    case Expire => false
    case _ => true
  }

  lemma SetNxKeepsInv(s: State, i: nat)
    requires Inv(s) && Enabled(s, SetNx(i, NoFault))
    ensures Inv(Step(s, SetNx(i, NoFault)))
  {
  }

  lemma GetKeepsInv(s: State, i: nat)
    requires Inv(s) && Enabled(s, Get(i, true))
    ensures Inv(Step(s, Get(i, true)))
  {
  }

  lemma WorkKeepsInv(s: State, a: Action)
    requires Inv(s) && Enabled(s, a) && Plain(a) && (a.Reject? || a.Publish?)
    ensures Inv(Step(s, a))
  {
  }

  lemma FinishKeepsInv(s: State, a: Action)
    requires Inv(s) && Enabled(s, a) && Plain(a) && (a.Store? || a.Del?)
    ensures Inv(Step(s, a))
  {
  }

  lemma DelKeepsInv(s: State, i: nat)
    requires Inv(s) && Enabled(s, Del(i, true)) && NoRace(s, Del(i, true))
    ensures Inv(Step(s, Del(i, true)))
  {
  }

  lemma PlainKeepsInv(s: State, a: Action)
    requires Inv(s) && Enabled(s, a) && Plain(a)
    ensures Inv(Step(s, a))
  {
    match a
    case SetNx(i, _) => SetNxKeepsInv(s, i);
    case Get(i, _) => GetKeepsInv(s, i);
    case Reject(_) => WorkKeepsInv(s, a);
    case Publish(_, _) => WorkKeepsInv(s, a);
    case Del(_, _) => FinishKeepsInv(s, a);
    case Store(_, _) => FinishKeepsInv(s, a);
  }

  // ---- Beyond the invariant ----

  // One request is left that may publish; every other has answered or is about to, without publishing or replaying.
  ghost predicate Solo(s: State, j: nat) {
    && j < |s.pcs|
    && (Waiting(s.pcs[j]) ==> s.key == Absent)
    && s.published == (if s.pcs[j].Caching? || s.pcs[j] == Answered(Accepted202) then [j] else [])
    && s.pcs[j] != Answered(Replayed202) && (s.pcs[j].Releasing? ==> NotAccepted(s.pcs[j].response))
    && (forall i :: 0 <= i < |s.pcs| && i != j ==> Leaving(s.pcs[i]))
  }

  predicate Leaving(pc: Pc) {
    (pc.Answered? || pc.Releasing?) && NotAccepted(pc.response)
  }

  // No request is left that may publish.
  ghost predicate Over(s: State) {
    && |s.published| <= 1 && AnswersOk(s)
    && (forall i :: 0 <= i < |s.pcs| ==> !Waiting(s.pcs[i]) && !s.pcs[i].Working?)
    && (forall i :: 0 <= i < |s.pcs| && s.pcs[i].Caching? ==> s.published == [i])
  }

  // Request i went on without the key, which stands for good and refuses everyone else.
  ghost predicate Shut(s: State, i: nat) {
    && s.key == Pending && i < |s.pcs|
    && (s.pcs[i] == Working(false, false) || (s.pcs[i].Answered? && s.pcs[i] != Answered(Replayed202)))
    && s.published == (if s.pcs[i] == Answered(Accepted202) then [i] else [])
    && forall k :: 0 <= k < |s.pcs| && k != i ==> Waiting(s.pcs[k]) || (s.pcs[k].Answered? && Leaving(s.pcs[k]))
  }

  ghost predicate Sound(s: State) {
    Inv(s) || (exists j: nat :: Solo(s, j)) || Over(s) || exists i: nat :: Shut(s, i)
  }

  lemma OverStays(s: State, a: Action)
    requires Over(s) && Enabled(s, a)
    ensures Over(Step(s, a))
  {
  }

  lemma SoloStays(s: State, a: Action, j: nat)
    requires Solo(s, j) && Enabled(s, a) && Tolerable(s, a)
    ensures Solo(Step(s, a), j) || Over(Step(s, a))
  {
  }

  // Once the key is gone, a lone refused request, or none, is all there is to worry about.
  lemma GoneIsSound(s: State)
    requires s.key == Absent && s.published == [] && Harmless(s)
    requires forall i :: 0 <= i < |s.pcs| ==> Waiting(s.pcs[i]) || (s.pcs[i].Answered? && Leaving(s.pcs[i]))
    ensures Sound(s)
  {
    if j: nat :| j < |s.pcs| && s.pcs[j].Duplicate? {
      assert Solo(s, j);
    } else {
      assert Inv(s);
    }
  }

  lemma ShutAsks(s: State, a: Action, i: nat)
    requires Shut(s, i) && Enabled(s, a) && Tolerable(s, a) && (a.SetNx? || a.Get?)
    ensures Sound(Step(s, a))
  {
    var t := Step(s, a);
    if Plain(a) {
      assert Shut(t, i);
    } else if a.SetNx? {
      assert Shut(t, a.i);
    } else {
      assert Inv(t);
    }
  }

  lemma ShutWorks(s: State, a: Action, i: nat)
    requires Shut(s, i) && Enabled(s, a) && Tolerable(s, a) && (a.Publish? || a.Reject?)
    ensures Sound(Step(s, a))
  {
    var t := Step(s, a);
    if Plain(a) {
      assert Shut(t, i);
    } else {
      assert Over(t);
    }
  }

  lemma ShutStays(s: State, a: Action, i: nat)
    requires Shut(s, i) && Enabled(s, a) && Tolerable(s, a)
    ensures Sound(Step(s, a))
  {
    match a
    case SetNx(_, _) => ShutAsks(s, a, i);
    case Get(_, _) => ShutAsks(s, a, i);
    case Publish(_, _) => ShutWorks(s, a, i);
    case Reject(_) => ShutWorks(s, a, i);
    case Expire => ShutExpires(s, i);
  }

  lemma ShutExpires(s: State, i: nat)
    requires Shut(s, i) && MayExpire(s)
    ensures Sound(Step(s, Expire))
  {
    var t := Step(s, Expire);
    if s.published != [] {
      assert Over(t);
    } else if s.pcs[i].Working? {
      assert Solo(t, i);
    } else {
      assert NoneReleases(s);
      GoneIsSound(t);
    }
  }

  // Under the invariant, with nothing published and nobody working, whoever is not waiting is leaving.
  lemma OthersLeave(s: State, k: nat)
    requires Inv(s) && k < |s.pcs| && s.published == [] && !s.pcs[k].Working? && !Waiting(s.pcs[k])
    ensures Leaving(s.pcs[k])
  {
  }

  // The request is let through because Redis failed it; the key may be missing still.
  predicate GoesWithout(s: State, a: Action, i: nat, missing: bool) {
    match a
    case SetNx(k, reply) => k == i && reply != NoFault && missing == (s.key == Absent && reply == Rejected)
    case Get(k, up) => k == i && !up && !missing
    case _ => false
  }

  lemma FailOpenSound(s: State, a: Action, i: nat, missing: bool)
    requires Inv(s) && Enabled(s, a) && MayFailOpen(s, i, missing)
    requires GoesWithout(s, a, i, missing)
    ensures Sound(Step(s, a))
  {
    var t := Step(s, a);
    forall k | 0 <= k < |s.pcs| && k != i && !Waiting(s.pcs[k]) ensures Leaving(s.pcs[k]) {
      OthersLeave(s, k);
    }
    if Quiet(s, i) {
      assert Solo(t, i);
    } else if a.Get? {
      assert Inv(t);
    } else {
      assert NoneReleases(s);
      assert Shut(t, i);
    }
  }

  lemma ReleaseSound(s: State, i: nat)
    requires Inv(s) && Enabled(s, Del(i, true)) && Harmless(s)
    ensures Sound(Step(s, Del(i, true)))
  {
    var t := Step(s, Del(i, true));
    forall k | 0 <= k < |s.pcs| && !Waiting(s.pcs[k]) ensures Leaving(s.pcs[k]) && (k != i ==> s.pcs[k].Answered?) {
      if k != i {
        assert Active(s.pcs[i]) && !Active(s.pcs[k]);
      }
      OthersLeave(s, k);
    }
    GoneIsSound(t);
  }

  lemma LostAckSound(s: State, i: nat)
    requires Inv(s) && Enabled(s, Publish(i, AckLost)) && Quiet(s, i)
    ensures Over(Step(s, Publish(i, AckLost)))
  {
    forall k | 0 <= k < |s.pcs| && k != i ensures Leaving(s.pcs[k]) && s.pcs[k].Answered? {
      assert Active(s.pcs[i]) && !Active(s.pcs[k]);
      OthersLeave(s, k);
    }
  }

  lemma ExpirySound(s: State)
    requires Inv(s) && Enabled(s, Expire) && MayExpire(s)
    ensures Sound(Step(s, Expire))
  {
    var t := Step(s, Expire);
    if s.published != [] {
      assert Over(t);
    } else {
      forall k | 0 <= k < |s.pcs| && !s.pcs[k].Working? && !Waiting(s.pcs[k]) ensures Leaving(s.pcs[k]) {
        OthersLeave(s, k);
      }
      if i: nat :| i < |s.pcs| && s.pcs[i].Working? {
        assert Solo(t, i);
      } else if NoneReleases(s) {
        GoneIsSound(t);
      } else if m: nat :| m < |s.pcs| && Waiting(s.pcs[m]) {
        assert Solo(t, m);
      } else {
        assert Over(t);
      }
    }
  }

  lemma InvStepSound(s: State, a: Action)
    requires Inv(s) && Enabled(s, a) && Tolerable(s, a)
    ensures Sound(Step(s, a))
  {
    if Plain(a) {
      PlainKeepsInv(s, a);
    } else {
      match a
      case SetNx(i, reply) => FailOpenSound(s, a, i, s.key == Absent && reply == Rejected);
      case Get(i, _) => FailOpenSound(s, a, i, false);
      case Publish(i, _) => LostAckSound(s, i);
      case Del(i, _) => ReleaseSound(s, i);
      case Expire => ExpirySound(s);
    }
  }

  lemma StepKeepsSound(s: State, a: Action)
    requires Sound(s) && Tolerable(s, a)
    ensures Sound(Advance(s, a))
  {
    if Enabled(s, a) {
      if Inv(s) {
        InvStepSound(s, a);
      } else if j: nat :| Solo(s, j) {
        SoloStays(s, a, j);
      } else if Over(s) {
        OverStays(s, a);
      } else {
        var i: nat :| Shut(s, i);
        ShutStays(s, a, i);
      }
    }
  }

  lemma {:induction false} RunKeepsSound(s: State, actions: seq<Action>)
    requires Sound(s) && AllTolerable(s, actions)
    ensures Sound(Run(s, actions))
  {
    if actions != [] {
      RunKeepsSound(s, actions[..|actions| - 1]);
      StepKeepsSound(Run(s, actions[..|actions| - 1]), actions[|actions| - 1]);
    }
  }

  // ---- The guarantee ----

  // Over every interleaving of any number of requests by tolerable steps, at most one event is published; the only
  // response that reports a fresh acceptance is its publisher's, and every other 202 is a replay of it.
  lemma {:induction false} AtMostOnePublish(n: nat, actions: seq<Action>)
    requires AllTolerable(Initial(n), actions)
    ensures var s := Run(Initial(n), actions);
            && |s.published| <= 1
            && (forall i :: 0 <= i < |s.pcs| && s.pcs[i] == Answered(Accepted202) ==> s.published == [i])
            && (forall i :: 0 <= i < |s.pcs| && s.pcs[i] == Answered(Replayed202) ==> |s.published| == 1)
  {
    RunKeepsSound(Initial(n), actions);
  }

  // Every tolerable continuation publishes at most once.
  ghost predicate AlwaysOnce(s: State) {
    forall actions | AllTolerable(s, actions) :: |Run(s, actions).published| <= 1
  }

  lemma SoundIsOnce(s: State)
    requires Sound(s)
    ensures AlwaysOnce(s)
  {
    forall actions | AllTolerable(s, actions) ensures |Run(s, actions).published| <= 1 {
      RunKeepsSound(s, actions);
    }
  }

  // ---- Without it: how a second event gets out ----

  // What a successful GET makes of a request.
  function ReadOf(key: KeyState): Pc {
    match key
    case Absent => Working(false, true)
    case Pending => Answered(Conflict409)
    case Cached => Answered(Replayed202)
  }

  // The GETs of the first n requests that have yet to read the key, save k.
  function Reads(s: State, k: nat, n: nat): seq<Action>
    requires n <= |s.pcs|
  {
    if n == 0 then []
    else Reads(s, k, n - 1) + if s.pcs[n - 1].Duplicate? && n - 1 != k then [Get(n - 1, true)] else []
  }

  function AfterReads(s: State, k: nat, n: nat): State {
    var read := seq(|s.pcs|, m requires 0 <= m < |s.pcs| =>
                  if m < n && m != k && s.pcs[m].Duplicate? then ReadOf(s.key) else s.pcs[m]);
    s.(pcs := read)
  }

  lemma OneMoreRead(s: State, k: nat, m: nat)
    requires m < |s.pcs|
    ensures var t, a := AfterReads(s, k, m), Get(m, true);
            AfterReads(s, k, m + 1) == if s.pcs[m].Duplicate? && m != k then Advance(t, a) else t
  {
    var t, u := AfterReads(s, k, m), AfterReads(s, k, m + 1);
    assert t.pcs[m] == s.pcs[m];
    if s.pcs[m].Duplicate? && m != k {
      assert u.pcs == t.pcs[m := ReadOf(s.key)];
    } else {
      assert u.pcs == t.pcs;
    }
  }

  ghost predicate ReadsOk(s: State, k: nat, n: nat)
    requires n <= |s.pcs|
  {
    && Run(s, Reads(s, k, n)) == AfterReads(s, k, n)
    && AllTolerable(s, Reads(s, k, n)) && Safe(s, Reads(s, k, n))
  }

  lemma NoReads(s: State, k: nat)
    ensures ReadsOk(s, k, 0)
  {
    assert AfterReads(s, k, 0).pcs == s.pcs;
  }

  lemma ReadsOneMore(s: State, k: nat, m: nat)
    requires m < |s.pcs| && ReadsOk(s, k, m)
    ensures ReadsOk(s, k, m + 1)
  {
    OneMoreRead(s, k, m);
    ReadsExtend(s, k, m);
  }

  lemma {:induction false} ReadsExact(s: State, k: nat, n: nat)
    requires n <= |s.pcs|
    ensures ReadsOk(s, k, n)
  {
    if n == 0 {
      NoReads(s, k);
    } else {
      ReadsExact(s, k, n - 1);
      ReadsOneMore(s, k, n - 1);
    }
  }

  lemma ReadsExtend(s: State, k: nat, m: nat)
    requires m < |s.pcs|
    ensures var front, a := Reads(s, k, m), Get(m, true);
            if s.pcs[m].Duplicate? && m != k then
              && Run(s, Reads(s, k, m + 1)) == Advance(Run(s, front), a)
              && (AllTolerable(s, front) ==> AllTolerable(s, Reads(s, k, m + 1)))
              && (Safe(s, front) ==> Safe(s, Reads(s, k, m + 1)))
            else Reads(s, k, m + 1) == front
  {
    if s.pcs[m].Duplicate? && m != k {
      Extend(s, Reads(s, k, m), Get(m, true));
    }
  }

  // What a waiting request does next.
  function Try(s: State, k: nat): Action
    requires k < |s.pcs|
  {
    if s.pcs[k].Idle? then SetNx(k, NoFault) else Get(k, true)
  }

  lemma Two(s: State, a: Action, b: Action) returns (actions: seq<Action>)
    requires Tolerable(s, a) && Tolerable(Advance(s, a), b)
    ensures AllTolerable(s, actions) && Run(s, actions) == Advance(Advance(s, a), b)
  {
    Extend(s, [], a);
    Extend(s, [] + [a], b);
    actions := [] + [a] + [b];
  }

  lemma Then(s: State, first: seq<Action>, second: seq<Action>) returns (actions: seq<Action>)
    requires AllTolerable(s, first) && AllTolerable(Run(s, first), second)
    ensures AllTolerable(s, actions) && Run(s, actions) == Run(Run(s, first), second)
  {
    TolerableConcat(s, first, second);
    RunConcat(s, first, second);
    actions := first + second;
  }

  // Two requests at work both publish.
  lemma TwoWorkersPublish(s: State, i: nat, k: nat)
    requires i < |s.pcs| && k < |s.pcs| && i != k && s.pcs[i].Working? && s.pcs[k].Working?
    ensures !AlwaysOnce(s)
  {
    var actions := Two(s, Publish(k, NoFault), Publish(i, NoFault));
    assert |Run(s, actions).published| >= 2;
  }

  lemma OneMorePublish(s: State, i: nat)
    requires i < |s.pcs| && s.pcs[i].Working? && s.published != []
    ensures !AlwaysOnce(s)
  {
    Extend(s, [], Publish(i, NoFault));
    assert |Run(s, [] + [Publish(i, NoFault)]).published| >= 2;
  }

  // What cannot be kept after some tolerable steps cannot be kept before them.
  lemma NotOnceBefore(s: State, actions: seq<Action>)
    requires AllTolerable(s, actions) && !AlwaysOnce(Run(s, actions))
    ensures !AlwaysOnce(s)
  {
    var t := Run(s, actions);
    var rest :| AllTolerable(t, rest) && |Run(t, rest).published| > 1;
    var all := Then(s, actions, rest);
  }

  lemma NotOnceBeforeStep(s: State, a: Action)
    requires Tolerable(s, a) && !AlwaysOnce(Advance(s, a))
    ensures !AlwaysOnce(s)
  {
    Extend(s, [], a);
    NotOnceBefore(s, [] + [a]);
  }

  // With the key gone, a waiting request gets to work.
  lemma WaiterWorks(s: State, k: nat)
    requires k < |s.pcs| && Waiting(s.pcs[k]) && s.key == Absent
    ensures var t := Advance(s, Try(s, k));
            && Tolerable(s, Try(s, k)) && t.published == s.published && |t.pcs| == |s.pcs|
            && t.pcs[k].Working? && t.pcs == s.pcs[k := t.pcs[k]] && (s.pcs[k].Duplicate? ==> t.key == Absent)
  {
  }

  // So it breaks the guarantee if an event is out, or another request is at work.
  lemma WaiterBreaks(s: State, k: nat)
    requires k < |s.pcs| && Waiting(s.pcs[k]) && s.key == Absent
    requires s.published != [] || exists i :: 0 <= i < |s.pcs| && i != k && s.pcs[i].Working?
    ensures !AlwaysOnce(s)
  {
    WaiterWorks(s, k);
    var t := Advance(s, Try(s, k));
    if s.published != [] {
      OneMorePublish(t, k);
    } else {
      var i :| 0 <= i < |s.pcs| && i != k && s.pcs[i].Working?;
      TwoWorkersPublish(t, i, k);
    }
    NotOnceBeforeStep(s, Try(s, k));
  }

  // And two waiting requests, one of them yet to read the key, break it between them.
  lemma RaceBreaks(s: State)
    requires s.key == Absent && !Harmless(s)
    ensures !AlwaysOnce(s)
  {
    var j: nat, k: nat :| j < |s.pcs| && k < |s.pcs| && j != k && s.pcs[j].Duplicate? && Waiting(s.pcs[k]);
    WaiterWorks(s, j);
    var t := Advance(s, Try(s, j));
    assert t.pcs[j].Working? && Waiting(t.pcs[k]);
    WaiterBreaks(t, k);
    NotOnceBeforeStep(s, Try(s, j));
  }

  // The waiting request to pick: a new one if there is any.
  lemma PickWaiting(s: State, i: nat) returns (k: nat)
    requires !Quiet(s, i)
    ensures k < |s.pcs| && k != i && Waiting(s.pcs[k])
    ensures s.pcs[k].Duplicate? ==> forall m :: 0 <= m < |s.pcs| && m != i ==> !s.pcs[m].Idle?
  {
    if m: nat :| m < |s.pcs| && m != i && s.pcs[m].Idle? {
      k := m;
    } else {
      k :| 0 <= k < |s.pcs| && k != i && Waiting(s.pcs[k]);
    }
  }

  // A release to come, an event out or a request at work, and somebody waiting: once the other refused requests have
  // read the key, its release is harmless and lets one more event out.
  lemma ReleaseToComeBreaks(s: State, r: nat)
    requires s.key == Pending && r < |s.pcs| && s.pcs[r].Releasing? && !Quiet(s, r)
    requires s.published != [] || exists i :: 0 <= i < |s.pcs| && s.pcs[i].Working?
    ensures !AlwaysOnce(s)
  {
    var n := |s.pcs|;
    var k := PickWaiting(s, r);
    ReadsExact(s, k, n);
    var t := AfterReads(s, k, n);
    var u := Advance(t, Del(r, true));
    if s.published == [] {
      var i :| 0 <= i < |s.pcs| && s.pcs[i].Working?;
      assert u.pcs[i].Working?;
    }
    WaiterBreaks(u, k);
    NotOnceBeforeStep(t, Del(r, true));
    NotOnceBefore(s, Reads(s, k, n));
  }

  // ---- Exactly which steps are safe ----

  lemma ReleaseBreaks(s: State, i: nat)
    requires Inv(s) && Enabled(s, Del(i, true)) && !Harmless(s)
    ensures !AlwaysOnce(Step(s, Del(i, true)))
  {
    var t := Step(s, Del(i, true));
    var j: nat, k: nat :| j < |s.pcs| && k < |s.pcs| && j != k && s.pcs[j].Duplicate? && Waiting(s.pcs[k]);
    assert t.pcs[j].Duplicate? && Waiting(t.pcs[k]);
    RaceBreaks(t);
  }

  lemma LostAckBreaks(s: State, i: nat)
    requires Inv(s) && Enabled(s, Publish(i, AckLost)) && !Quiet(s, i)
    ensures !AlwaysOnce(Step(s, Publish(i, AckLost)))
  {
    var t := Step(s, Publish(i, AckLost));
    var k :| 0 <= k < |s.pcs| && k != i && Waiting(s.pcs[k]);
    assert Waiting(t.pcs[k]);
    ReleaseToComeBreaks(t, i);
  }

  lemma FailOpenBreaks(s: State, a: Action, i: nat, missing: bool)
    requires Inv(s) && Enabled(s, a) && !MayFailOpen(s, i, missing)
    requires GoesWithout(s, a, i, missing)
    ensures !AlwaysOnce(Step(s, a))
  {
    var t := Step(s, a);
    assert t.pcs[i].Working? && t.published == s.published;
    if s.published != [] {
      OneMorePublish(t, i);
    } else if !NoOtherWorks(s, i) {
      var k :| 0 <= k < |s.pcs| && k != i && s.pcs[k].Working?;
      TwoWorkersPublish(t, i, k);
    } else {
      var k :| 0 <= k < |s.pcs| && k != i && Waiting(s.pcs[k]);
      assert Waiting(t.pcs[k]);
      if !NoneReleases(s) {
        var r: nat :| r < |s.pcs| && s.pcs[r].Releasing?;
        ReleaseToComeBreaks(t, r);
      } else {
        WaiterBreaks(t, k);
      }
    }
  }

  // Two waiting requests and a release to come: if one has yet to read the key they race, and if both are new the
  // release undoes the first one's claim.
  lemma ExpiredClaimBreaks(s: State, r: nat)
    requires s.key == Absent && r < |s.pcs| && s.pcs[r].Releasing? && !AtMostOneWaits(s)
    ensures !AlwaysOnce(s)
  {
    if !Harmless(s) {
      RaceBreaks(s);
    } else {
      var j: nat, k: nat :| j < |s.pcs| && k < |s.pcs| && j != k && Waiting(s.pcs[j]) && Waiting(s.pcs[k]);
      var t := Advance(s, SetNx(j, NoFault));
      var u := Advance(t, Del(r, true));
      assert u.pcs[j].Working? && Waiting(u.pcs[k]);
      WaiterBreaks(u, k);
      NotOnceBeforeStep(t, Del(r, true));
      NotOnceBeforeStep(s, SetNx(j, NoFault));
    }
  }

  lemma ExpiryBreaks(s: State)
    requires Inv(s) && Enabled(s, Expire) && !MayExpire(s)
    ensures !AlwaysOnce(Step(s, Expire))
  {
    var t := Step(s, Expire);
    if s.published != [] || exists i :: 0 <= i < |s.pcs| && s.pcs[i].Working? {
      var k: nat :| k < |s.pcs| && Waiting(s.pcs[k]);
      WaiterBreaks(t, k);
    } else if !NoneReleases(s) {
      var r: nat :| r < |s.pcs| && s.pcs[r].Releasing?;
      ExpiredClaimBreaks(t, r);
    } else {
      RaceBreaks(t);
    }
  }

  // From any state under the invariant, whatever step is taken and whatever fails in it: every tolerable continuation
  // publishes at most once if and only if the step is tolerable itself.
  lemma {:induction false} SafeIffTolerable(s: State, a: Action)
    requires Inv(s) && Enabled(s, a)
    ensures AlwaysOnce(Step(s, a)) <==> Tolerable(s, a)
  {
    if Tolerable(s, a) {
      InvStepSound(s, a);
      SoundIsOnce(Step(s, a));
    } else {
      match a
      case SetNx(i, reply) => FailOpenBreaks(s, a, i, s.key == Absent && reply == Rejected);
      case Get(i, _) => FailOpenBreaks(s, a, i, false);
      case Publish(i, _) => LostAckBreaks(s, i);
      case Del(i, _) => ReleaseBreaks(s, i);
      case Expire => ExpiryBreaks(s);
    }
  }

  // The two cases that no outage is needed for. A release of the key is safe exactly when no request yet to read it
  // waits together with another, be it new or in the same position.
  lemma {:induction false} ReleaseSafeIffHarmless(s: State, i: nat)
    requires Inv(s) && Enabled(s, Del(i, true))
    ensures AlwaysOnce(Step(s, Del(i, true))) <==> Harmless(s)
  {
    SafeIffTolerable(s, Del(i, true));
  }

  // A publish that lands but is reported failed is safe exactly when no other request is waiting, be it new or yet to
  // read the key.
  lemma {:induction false} LostAckSafeIffQuiet(s: State, i: nat)
    requires Inv(s) && i < |s.pcs| && s.pcs[i].Working?
    ensures AlwaysOnce(Step(s, Publish(i, AckLost))) <==> Quiet(s, i)
  {
    SafeIffTolerable(s, Publish(i, AckLost));
  }

  // ---- How many requests it takes ----

  lemma {:induction false} RequestsStay(s: State, actions: seq<Action>)
    ensures |Run(s, actions).pcs| == |s.pcs|
  {
    if actions != [] {
      RequestsStay(s, actions[..|actions| - 1]);
    }
  }

  // Two requests cannot race harmfully: the third place is the releaser's.
  lemma {:induction false} TwoAreTolerable(n: nat, actions: seq<Action>)
    requires n <= 2 && AllHealthy(actions)
    ensures AllTolerable(Initial(n), actions)
  {
    if actions != [] {
      TwoAreTolerable(n, actions[..|actions| - 1]);
      RequestsStay(Initial(n), actions[..|actions| - 1]);
    }
  }

  // The first request claims the key, then fails validation and releases it while the second, refused by SETNX, has not
  // yet read it.
  function Opening(): seq<Action> {
    [SetNx(0, NoFault), SetNx(1, NoFault), Reject(0), Del(0, true)]
  }

  // The second and a third both publish.
  function Closing(): seq<Action> {
    [Get(1, true), SetNx(2, NoFault), Publish(2, NoFault), Publish(1, NoFault)]
  }

  lemma FourSteps(s: State, t: seq<Action>)
    requires |t| == 4
    ensures Run(s, t) == Advance(Advance(Advance(Advance(s, t[0]), t[1]), t[2]), t[3])
  {
    Extend(s, [], t[0]);
    Extend(s, [] + [t[0]], t[1]);
    Extend(s, [] + [t[0]] + [t[1]], t[2]);
    Extend(s, [] + [t[0]] + [t[1]] + [t[2]], t[3]);
    assert t == [] + [t[0]] + [t[1]] + [t[2]] + [t[3]];
  }

  lemma ThreePublishTwice(n: nat)
    requires n >= 3
    ensures AllHealthy(Opening() + Closing()) && |Run(Initial(n), Opening() + Closing()).published| == 2
  {
    FourSteps(Initial(n), Opening());
    var s := Run(Initial(n), Opening());
    assert s.key == Absent && s.published == [] && |s.pcs| == n && s.pcs[1].Duplicate? && s.pcs[2].Idle?;
    FourSteps(s, Closing());
    RunConcat(Initial(n), Opening(), Closing());
  }

  // With nothing failing, at most one event is published over all interleavings exactly when at most two requests
  // share the key.
  lemma {:induction false} HealthyOnceIffTwo(n: nat)
    ensures (forall actions | AllHealthy(actions) :: |Run(Initial(n), actions).published| <= 1) <==> n <= 2
  {
    if n <= 2 {
      forall actions | AllHealthy(actions) ensures |Run(Initial(n), actions).published| <= 1 {
        TwoAreTolerable(n, actions);
        AtMostOnePublish(n, actions);
      }
    } else {
      ThreePublishTwice(n);
    }
  }

  // ---- Answers ----

  // A request left alone by a harmless race.
  ghost predicate Lone(s: State, j: nat) {
    && Solo(s, j) && (s.pcs[j].Working? ==> s.pcs[j].keyed)
    && forall i :: 0 <= i < |s.pcs| && i != j ==> s.pcs[i].Answered?
  }

  // The response of whoever was accepted is in the key.
  ghost predicate InKey(s: State) {
    forall i :: 0 <= i < |s.pcs| && s.pcs[i] == Answered(Accepted202) ==> s.key == Cached
  }

  ghost predicate Remembers(s: State) {
    InKey(s) && (Inv(s) || exists j: nat :: Lone(s, j))
  }

  lemma ReleaseRemembers(s: State, i: nat)
    requires Inv(s) && InKey(s) && Enabled(s, Del(i, true)) && Harmless(s)
    ensures Remembers(Step(s, Del(i, true)))
  {
    var t := Step(s, Del(i, true));
    forall k | 0 <= k < |s.pcs| && !Waiting(s.pcs[k]) ensures Leaving(s.pcs[k]) && (k != i ==> s.pcs[k].Answered?) {
      assert k != i ==> Active(s.pcs[i]) && !Active(s.pcs[k]);
      OthersLeave(s, k);
    }
    if j: nat :| j < |s.pcs| && s.pcs[j].Duplicate? {
      assert Lone(t, j);
    } else {
      DelKeepsInv(s, i);
    }
  }

  lemma PlainInKey(s: State, a: Action)
    requires Inv(s) && InKey(s) && Enabled(s, a) && Healthy(a) && !a.Del?
    ensures InKey(Step(s, a))
  {
    if a.Reject? || a.Publish? {
      assert Active(s.pcs[a.i]) && s.key == Pending;
    }
    var t := Step(s, a);
    forall i | 0 <= i < |t.pcs| && t.pcs[i] == Answered(Accepted202) ensures t.key == Cached {
      if a.SetNx? || a.Get? {
        assert i != a.i && s.pcs[i] == t.pcs[i];
      }
    }
  }

  lemma HealthyInvRemembers(s: State, a: Action)
    requires Inv(s) && InKey(s) && Enabled(s, a) && Healthy(a) && Tolerable(s, a)
    ensures Remembers(Step(s, a))
  {
    if a.Del? {
      ReleaseRemembers(s, a.i);
    } else {
      PlainKeepsInv(s, a);
      PlainInKey(s, a);
    }
  }

  lemma LoneRemembers(s: State, a: Action, j: nat)
    requires Lone(s, j) && InKey(s) && Enabled(s, a) && Healthy(a)
    ensures Lone(Step(s, a), j) && InKey(Step(s, a))
  {
  }

  lemma {:induction false} HealthyRunRemembers(n: nat, actions: seq<Action>)
    requires AllHealthy(actions) && AllTolerable(Initial(n), actions)
    ensures Remembers(Run(Initial(n), actions))
  {
    if actions != [] {
      var s, a := Run(Initial(n), actions[..|actions| - 1]), actions[|actions| - 1];
      HealthyRunRemembers(n, actions[..|actions| - 1]);
      if Enabled(s, a) {
        if Inv(s) {
          HealthyInvRemembers(s, a);
        } else {
          var j: nat :| Lone(s, j);
          LoneRemembers(s, a, j);
        }
      }
    }
  }

  // Accepted for good: the response is in the key and nobody is past it any more.
  ghost predicate Settled(s: State, i: nat) {
    && s.key == Cached && s.published == [i]
    && forall k :: 0 <= k < |s.pcs| ==> !Active(s.pcs[k])
  }

  lemma AcceptedSettles(s: State, i: nat)
    requires Remembers(s) && i < |s.pcs| && s.pcs[i] == Answered(Accepted202)
    ensures Settled(s, i)
  {
    if !Inv(s) {
      var j: nat :| Lone(s, j);
      assert i == j;
    }
  }

  // From then on a request is on its way to a replay, or has had it.
  predicate Replays(pc: Pc) {
    Waiting(pc) || pc == Answered(Replayed202)
  }

  lemma {:induction false} SettledStays(s: State, i: nat, k: nat, later: seq<Action>)
    requires Settled(s, i) && k < |s.pcs| && Replays(s.pcs[k]) && AllHealthy(later)
    ensures var t := Run(s, later); Settled(t, i) && |t.pcs| == |s.pcs| && Replays(t.pcs[k])
  {
    if later != [] {
      SettledStays(s, i, k, later[..|later| - 1]);
    }
  }

  // The operations a request has left before its answer.
  function ToAnswer(pc: Pc, k: nat): seq<Action> {
    match pc
    case Idle => [SetNx(k, NoFault), Get(k, true)]
    case Duplicate => [Get(k, true)]
    case _ => []
  }

  lemma ReplayFollows(s: State, i: nat, k: nat)
    requires Settled(s, i) && k < |s.pcs| && Replays(s.pcs[k])
    ensures var t := Run(s, ToAnswer(s.pcs[k], k)); |t.pcs| == |s.pcs| && t.pcs[k] == Answered(Replayed202)
  {
    if s.pcs[k].Idle? {
      TwoMore(s, SetNx(k, NoFault), Get(k, true));
    } else if s.pcs[k].Duplicate? {
      Extend(s, [], Get(k, true));
      assert ToAnswer(s.pcs[k], k) == [] + [Get(k, true)];
    }
  }

  lemma TwoMore(s: State, a: Action, b: Action)
    ensures Run(s, [a, b]) == Advance(Advance(s, a), b)
  {
    Extend(s, [], a);
    Extend(s, [] + [a], b);
    assert [a, b] == [] + [a] + [b];
  }

  // Once a request has been accepted, with Redis answering and no expiry, no later request publishes anything, and each
  // comes to a replay of the acceptance: it is never answered otherwise, and its own remaining operations lead to it.
  lemma {:induction false} RepeatsAreReplayed(n: nat, past: seq<Action>, i: nat, k: nat, later: seq<Action>)
    requires AllHealthy(past) && AllTolerable(Initial(n), past) && AllHealthy(later) && i < n && k < n
    requires |Run(Initial(n), past).pcs| == n
    requires Run(Initial(n), past).pcs[i] == Answered(Accepted202) && Run(Initial(n), past).pcs[k].Idle?
    ensures var t := Run(Run(Initial(n), past), later);
            && t.published == [i] && |t.pcs| == n
            && (t.pcs[k].Answered? ==> t.pcs[k] == Answered(Replayed202))
            && var u := Run(t, ToAnswer(t.pcs[k], k));
               |u.pcs| == n && u.pcs[k] == Answered(Replayed202)
  {
    var s := Run(Initial(n), past);
    HealthyRunRemembers(n, past);
    AcceptedSettles(s, i);
    SettledStays(s, i, k, later);
    var t := Run(s, later);
    ReplayFollows(t, i, k);
  }

  // Somebody stands behind a pending key.
  predicate HoldsKey(pc: Pc) {
    (pc.Working? && pc.keyed) || pc.Releasing? || pc.Caching?
  }

  ghost predicate PendingHeld(s: State) {
    s.key == Pending ==> exists i :: 0 <= i < |s.pcs| && HoldsKey(s.pcs[i])
  }

  lemma StepKeepsHeld(s: State, a: Action)
    requires PendingHeld(s) && Enabled(s, a) && Healthy(a)
    ensures PendingHeld(Step(s, a))
  {
    var t := Step(s, a);
    if t.key == Pending {
      if a.SetNx? && s.key == Absent {
        assert HoldsKey(t.pcs[a.i]);
      } else {
        var i :| 0 <= i < |s.pcs| && HoldsKey(s.pcs[i]);
        assert HoldsKey(t.pcs[i]);
      }
    }
  }

  lemma {:induction false} RunKeepsHeld(n: nat, actions: seq<Action>)
    requires AllHealthy(actions)
    ensures PendingHeld(Run(Initial(n), actions))
  {
    if actions != [] {
      var s, a := Run(Initial(n), actions[..|actions| - 1]), actions[|actions| - 1];
      RunKeepsHeld(n, actions[..|actions| - 1]);
      if Enabled(s, a) {
        StepKeepsHeld(s, a);
      }
    }
  }

  // With nothing failing, a request is told that another one is in flight only while another one is: between its claim
  // and its answer.
  lemma {:induction false} ConflictOnlyInFlight(n: nat, actions: seq<Action>, k: nat)
    requires AllHealthy(actions) && Enabled(Run(Initial(n), actions), Get(k, true))
    requires Step(Run(Initial(n), actions), Get(k, true)).pcs[k] == Answered(Conflict409)
    ensures var s := Run(Initial(n), actions); exists i :: 0 <= i < |s.pcs| && i != k && HoldsKey(s.pcs[i])
  {
    RunKeepsHeld(n, actions);
  }

  // ---- Who releases the key ----

  // The key is not released while another request sits between its SETNX and its GET.
  ghost predicate NoRace(s: State, a: Action) {
    a.Del? ==> forall j :: 0 <= j < |s.pcs| ==> !s.pcs[j].Duplicate?
  }

  ghost predicate Safe(s: State, actions: seq<Action>) {
    if actions == [] then true
    else
      var front, a := actions[..|actions| - 1], actions[|actions| - 1];
      Safe(s, front) && Healthy(a) && NoRace(Run(s, front), a)
  }

  ghost predicate ByClaimants(s: State) {
    forall k :: 0 <= k < |s.releases| ==> s.releases[k]
  }

  // Every request past the duplicate check claimed the key, and so did all that released it.
  ghost predicate Claimed(s: State) {
    ByClaimants(s) && forall i :: 0 <= i < |s.pcs| && Active(s.pcs[i]) ==> s.pcs[i].claimed
  }

  lemma StepKeepsClaims(s: State, a: Action)
    requires Inv(s) && Claimed(s) && Healthy(a) && NoRace(s, a)
    ensures Inv(Advance(s, a)) && Claimed(Advance(s, a))
  {
    if Enabled(s, a) {
      if a.Del? {
        DelKeepsInv(s, a.i);
      } else {
        PlainKeepsInv(s, a);
      }
      HealthyKeepsClaims(s, a);
    }
  }

  lemma HealthyKeepsClaims(s: State, a: Action)
    requires Inv(s) && Claimed(s) && Enabled(s, a) && Healthy(a)
    ensures Claimed(Step(s, a))
  {
  }

  lemma {:induction false} RunKeepsClaims(s: State, actions: seq<Action>)
    requires Inv(s) && Claimed(s) && Safe(s, actions)
    ensures Inv(Run(s, actions)) && Claimed(Run(s, actions))
  {
    if actions != [] {
      var front := actions[..|actions| - 1];
      RunKeepsClaims(s, front);
      StepKeepsClaims(Run(s, front), actions[|actions| - 1]);
    }
  }

  // Over every interleaving without a race, only requests that claimed the key ever release it.
  lemma {:induction false} OnlyClaimantsRelease(n: nat, actions: seq<Action>)
    requires Safe(Initial(n), actions)
    ensures ByClaimants(Run(Initial(n), actions))
  {
    RunKeepsClaims(Initial(n), actions);
  }

  lemma {:induction false} SafeConcat(s: State, a: seq<Action>, b: seq<Action>)
    requires Safe(s, a) && Safe(Run(s, a), b)
    ensures Safe(s, a + b)
  {
    if b == [] {
      assert a + b == a;
    } else {
      var c := b[..|b| - 1];
      SafeConcat(s, a, c);
      RunConcat(s, a, c);
      assert (a + b)[..|a + b| - 1] == a + c;
    }
  }

  // A request refused by SETNX that reads the released key and then fails validation releases it, unclaimed.
  lemma RaceReleasesUnclaimed(s: State, j: nat) returns (actions: seq<Action>)
    requires j < |s.pcs| && s.pcs[j].Duplicate? && s.key == Absent
    ensures Safe(s, actions) && !ByClaimants(Run(s, actions))
  {
    var n := |s.pcs|;
    ReadsExact(s, n, n);
    var s1, tail := AfterReads(s, n, n), [Reject(j), Del(j, true)];
    Extend(s1, [], tail[0]);
    Extend(s1, [] + [tail[0]], tail[1]);
    assert tail == [] + [tail[0]] + [tail[1]];
    var s3 := Run(s1, tail);
    assert !s3.releases[|s3.releases| - 1];
    SafeConcat(s, Reads(s, n, n), tail);
    RunConcat(s, Reads(s, n, n), tail);
    actions := Reads(s, n, n) + tail;
  }

  // After a release, all continuations free of further races release only by claimants exactly when it was free of
  // one itself.
  lemma {:induction false} ReleasedByClaimantsIffNoRace(s: State, i: nat)
    requires Inv(s) && Claimed(s) && Enabled(s, Del(i, true))
    ensures var s1 := Step(s, Del(i, true));
            (forall actions | Safe(s1, actions) :: ByClaimants(Run(s1, actions))) <==> NoRace(s, Del(i, true))
  {
    var s1 := Step(s, Del(i, true));
    if NoRace(s, Del(i, true)) {
      StepKeepsClaims(s, Del(i, true));
      forall actions | Safe(s1, actions) ensures ByClaimants(Run(s1, actions)) {
        RunKeepsClaims(s1, actions);
      }
    } else {
      var j: nat :| j < |s.pcs| && s.pcs[j].Duplicate?;
      assert s1.pcs[j] == s.pcs[j];
      var actions := RaceReleasesUnclaimed(s1, j);
    }
  }

  // ---- The handler, run on its own ----

  // How the environment treats one request.
  datatype Env = Env(setNx: Fault, getUp: bool, valid: bool, publish: Fault, finishUp: bool)

  // The schedule in which request i performs all its operations without interference: first those on the key alone,
  // then the event itself.
  function Entered(s: State, i: nat, env: Env): (t: State)
    requires i < |s.pcs| && s.pcs[i].Idle?
    ensures |t.pcs| == |s.pcs|
  {
    var s1 := Step(s, SetNx(i, env.setNx));
    if s1.pcs[i].Duplicate? then Step(s1, Get(i, env.getUp)) else s1
  }

  function Finished(s: State, i: nat, env: Env): State
    requires i < |s.pcs|
  {
    var s1 := if !s.pcs[i].Working? then s
              else if env.valid then Step(s, Publish(i, env.publish)) else Step(s, Reject(i));
    if s1.pcs[i].Releasing? then Step(s1, Del(i, env.finishUp))
    else if s1.pcs[i].Caching? then Step(s1, Store(i, env.finishUp))
    else s1
  }

  function Alone(s: State, i: nat, env: Env): State
    requires i < |s.pcs| && s.pcs[i].Idle?
  {
    Finished(Entered(s, i, env), i, env)
  }

  // A valid request, nothing failing.
  const FINE := Env(NoFault, true, true, NoFault, true)

  // An invalid one.
  const UNFIT := Env(NoFault, true, false, NoFault, true)

  lemma AloneFine(key: KeyState)
    ensures var s := State(key, [Idle], [], []);
            && Alone(s, 0, FINE) == match key
               case Absent => State(Cached, [Answered(Accepted202)], [0], [])
               case Pending => State(Pending, [Answered(Conflict409)], [], [])
               case Cached => State(Cached, [Answered(Replayed202)], [], [])
    ensures Alone(State(Absent, [Idle], [], []), 0, UNFIT) == State(Absent, [Answered(Invalid4xx)], [], [true])
    ensures Alone(State(key, [Idle], [], []), 0, FINE.(setNx := Rejected)) ==
            State(key, [Answered(Accepted202)], [0], [])
  {
  }

  function EffectiveEnv(key: string, env: Env): Env {
    if key == "" then env.(setNx := Rejected) else env
  }

  function IdemKey(tenant: string, key: string): (r: string)
    ensures r != ""
  {
    "idem:" + tenant + ":" + key
  }

  lemma SplitAfter(idem: string, tenant: string, key: string)
    requires ':' !in idem && ':' !in tenant
    ensures Text.SplitN(idem + [':'] + tenant + [':'] + key, ':', 3) == [idem, tenant, key]
  {
    Text.SplitTwoHeads(idem, tenant, key, ':');
  }

  lemma IdemKeyParts(tenant: string, key: string)
    requires ':' !in tenant
    ensures Text.SplitN(IdemKey(tenant, key), ':', 3) == ["idem", tenant, key]
  {
    var idem := "idem";
    assert "idem:" == idem + [':'] && ":" == [':'];
    SplitAfter(idem, tenant, key);
  }

  // Tenants have no colons, so no two tenants share a key, and no two idempotency keys of one tenant.
  lemma KeysApart(tenant: string, key: string, tenant': string, key': string)
    requires ':' !in tenant && ':' !in tenant'
    ensures IdemKey(tenant, key) == IdemKey(tenant', key') <==> tenant == tenant' && key == key'
  {
    IdemKeyParts(tenant, key);
    IdemKeyParts(tenant', key');
    assert ["idem", tenant, key][1] == tenant && ["idem", tenant, key][2] == key;
  }

  class Intake {
    var redis: map<string, KeyState>
    var queued: nat

    constructor ()
      ensures redis == map[] && queued == 0
    {
      redis, queued := map[], 0;
    }

    function KeyAt(redisKey: string): KeyState
      reads this
    {
      if redisKey in redis then redis[redisKey] else Absent
    }

    method Release(redisKey: string, up: bool)
      modifies this
      ensures queued == old(queued)
      ensures redis == if redisKey != "" && up then old(redis) - {redisKey} else old(redis)
    {
      if redisKey != "" && up {
        redis := redis - {redisKey};
      }
    }

    // Validation, publish, and the last word on the key, which is "" when this request has none.
    method Process(redisKey: string, env: Env, ghost idem: string, ghost claimed: bool) returns (response: Response)
      requires idem != "" && redisKey in {"", idem}
      modifies this
      ensures var s := Finished(State(old(KeyAt(idem)), [Working(claimed, redisKey != "")], [], []), 0, env);
              s.pcs == [Answered(response)] && KeyAt(idem) == s.key && queued == old(queued) + |s.published|
      ensures forall k :: k != idem ==> KeyAt(k) == old(KeyAt(k))
    {
      if !env.valid {
        Release(redisKey, env.finishUp);
        return Invalid4xx;
      }
      if env.publish != Rejected {
        queued := queued + 1;
      }
      if env.publish != NoFault {
        Release(redisKey, env.finishUp);
        return Failed500;
      }
      if redisKey != "" && env.finishUp {
        redis := redis[redisKey := Cached];
      }
      response := Accepted202;
    }

    // SETNX, and GET for a key already there.
    method Enter(idem: string, env: Env) returns (pc: Pc)
      modifies this
      ensures var s := Entered(State(old(KeyAt(idem)), [Idle], [], []), 0, env);
              s.pcs == [pc] && s.published == [] && KeyAt(idem) == s.key && queued == old(queued)
      ensures pc.Working? || pc.Answered?
      ensures forall k :: k != idem ==> KeyAt(k) == old(KeyAt(k))
    {
      if env.setNx != NoFault {
        if env.setNx == AckLost && KeyAt(idem) == Absent {
          redis := redis[idem := Pending];
        }
        return Working(false, false);
      }
      if KeyAt(idem) == Absent {
        redis := redis[idem := Pending];
        return Working(true, true);
      }
      if !env.getUp {
        return Working(false, true);
      }
      pc := Answered(if KeyAt(idem) == Pending then Conflict409 else Replayed202);
    }

    // Handling a request end to end is the uninterrupted schedule of the same atomic steps, and touches no other
    // key; one without an Idempotency-Key is handled as if Redis were down.
    method Accept(tenant: string, key: string, env: Env) returns (response: Response)
      modifies this
      ensures var s := Alone(State(old(KeyAt(IdemKey(tenant, key))), [Idle], [], []), 0, EffectiveEnv(key, env));
              && s.pcs == [Answered(response)]
              && KeyAt(IdemKey(tenant, key)) == s.key
              && queued == old(queued) + |s.published|
      ensures forall k :: k != IdemKey(tenant, key) ==> KeyAt(k) == old(KeyAt(k))
    {
      var idem := IdemKey(tenant, key);
      var pc := Enter(idem, EffectiveEnv(key, env));
      if pc.Answered? {
        return pc.response;
      }
      response := Process(if pc.keyed then idem else "", EffectiveEnv(key, env), idem, pc.claimed);
    }

    // The endpoint: without a tenant nothing is touched.
    method Trigger(tenant: Option<string>, key: string, env: Env) returns (response: Response)
      modifies this
      ensures tenant.None? ==> response == Unauthorized401 && queued == old(queued) && redis == old(redis)
      ensures tenant.Some? ==>
                var idem := IdemKey(tenant.value, key);
                var s := Alone(State(old(KeyAt(idem)), [Idle], [], []), 0, EffectiveEnv(key, env));
                s.pcs == [Answered(response)] && KeyAt(idem) == s.key && queued == old(queued) + |s.published|
      ensures tenant.Some? ==> forall k :: k != IdemKey(tenant.value, key) ==> KeyAt(k) == old(KeyAt(k))
      // With nothing failing: a valid request is accepted, once, and remembered; a repeat is replayed; a request in
      // flight is respected; an invalid one leaves no trace.
      ensures tenant.Some? && env == FINE ==>
                var before, after := old(KeyAt(IdemKey(tenant.value, key))), KeyAt(IdemKey(tenant.value, key));
                if key == "" then response == Accepted202 && queued == old(queued) + 1 && after == before
                else match before
                     case Absent => response == Accepted202 && queued == old(queued) + 1 && after == Cached
                     case Pending => response == Conflict409 && queued == old(queued) && after == Pending
                     case Cached => response == Replayed202 && queued == old(queued) && after == Cached
      ensures tenant.Some? && key != "" && env == UNFIT ==>
                old(KeyAt(IdemKey(tenant.value, key))) == Absent ==>
                  response == Invalid4xx && queued == old(queued) && KeyAt(IdemKey(tenant.value, key)) == Absent
    {
      match tenant
      case None => response := Unauthorized401;
      case Some(t) =>
        AloneFine(KeyAt(IdemKey(t, key)));
        response := Accept(t, key, env);
    }
  }
}
