// The per-tenant request limiter: one counter per tenant whose expiry is pushed back by every request.
module RateLimit {
  import opened Faults

  datatype Expiry = Never | At(t: int)

  // A counter key: its value and the instant it disappears.
  datatype Counter = Counter(count: nat, expiry: Expiry)

  type Counters = map<string, Counter>

  predicate Live(c: Counter, now: int) {
    c.expiry.At? ==> now < c.expiry.t
  }

  // INCR: a key that is absent or has expired counts from one and has no expiry of its own.
  function Incremented(c: Counters, tenant: string, now: int): (c': Counters)
    ensures tenant in c'
  {
    if tenant in c && Live(c[tenant], now) then c[tenant := Counter(c[tenant].count + 1, c[tenant].expiry)]
    else c[tenant := Counter(1, Never)]
  }

  // INCR then EXPIRE.
  function Hit(c: Counters, tenant: string, now: int, window: nat): (c': Counters)
    ensures tenant in c'
  {
    var c1 := Incremented(c, tenant, now);
    c1[tenant := Counter(c1[tenant].count, At(now + window))]
  }

  // The pipeline of the two commands: answered, or failed after the first so many took effect.
  datatype Pipe = Answered | Failed(applied: nat)

  class Limiter {
    var counters: Counters
    const limit: nat
    const window: nat

    constructor (limit: nat, window: nat)
      ensures counters == map[] && this.limit == limit && this.window == window
    {
      counters := map[];
      this.limit, this.window := limit, window;
    }

    // A request without a tenant is not limited; a failed pipeline lets the request through, whatever it did.
    method Admit(tenant: Option<string>, now: int, pipe: Pipe) returns (ok: bool)
      modifies this
      ensures counters ==
              if tenant.None? || pipe == Failed(0) then old(counters)
              else if pipe == Failed(1) then Incremented(old(counters), tenant.value, now)
              else Hit(old(counters), tenant.value, now, window)
      ensures ok <==> (tenant.Some? && pipe.Answered? ==> counters[tenant.value].count <= limit)
    {
      if tenant.None? || pipe == Failed(0) {
        return true;
      }
      var key, counter := tenant.value, Counter(1, Never);
      if key in counters && Live(counters[key], now) {
        counter := Counter(counters[key].count + 1, counters[key].expiry);
      }
      if pipe != Failed(1) {
        counter := Counter(counter.count, At(now + window));
      }
      counters := counters[key := counter];
      ok := pipe.Failed? || counter.count <= limit;
    }
  }

  // ---- Request traces ----

  datatype Request = Request(tenant: string, at: int)

  ghost predicate Chronological(trace: seq<Request>) {
    forall i, j :: 0 <= i < j < |trace| ==> trace[i].at <= trace[j].at
  }

  function After(trace: seq<Request>, window: nat): Counters {
    if trace == [] then map[]
    else
      var r := trace[|trace| - 1];
      Hit(After(trace[..|trace| - 1], window), r.tenant, r.at, window)
  }

  // Whether the last request of the trace is admitted.
  predicate LastAdmitted(trace: seq<Request>, limit: nat, window: nat)
    requires trace != []
  {
    After(trace, window)[trace[|trace| - 1].tenant].count <= limit
  }

  predicate Admitted(trace: seq<Request>, k: nat, limit: nat, window: nat)
    requires k < |trace|
  {
    LastAdmitted(trace[..k + 1], limit, window)
  }

  // A tenant's request times, in order.
  function Times(trace: seq<Request>, tenant: string): seq<int> {
    if trace == [] then []
    else
      var r := trace[|trace| - 1];
      var earlier := Times(trace[..|trace| - 1], tenant);
      if r.tenant == tenant then earlier + [r.at] else earlier
  }

  // Length of the burst a time sequence ends with: the requests since the last gap of a window or more.
  function Burst(times: seq<int>, window: nat): (n: nat)
    ensures n <= |times| && (times != [] ==> n >= 1)
  {
    if times == [] then 0
    else if |times| == 1 || times[|times| - 1] - times[|times| - 2] >= window then 1
    else 1 + Burst(times[..|times| - 1], window)
  }

  // Burst measured without recursion: the longest gap-free suffix.
  ghost predicate GapFree(times: seq<int>, from: nat, window: nat) {
    forall i :: from < i < |times| ==> times[i] - times[i - 1] < window
  }

  lemma {:induction false} BurstIsLongestGapFreeSuffix(times: seq<int>, window: nat)
    requires times != []
    ensures var start := |times| - Burst(times, window);
            && GapFree(times, start, window)
            && (start > 0 ==> times[start] - times[start - 1] >= window)
  {
    var n := |times| - 1;
    if n > 0 && times[n] - times[n - 1] < window {
      BurstIsLongestGapFreeSuffix(times[..n], window);
    }
  }

  function Latest(trace: seq<Request>, tenant: string): int
    requires Times(trace, tenant) != []
  {
    Times(trace, tenant)[|Times(trace, tenant)| - 1]
  }

  // One more request of the tenant either starts a new burst or lengthens the current one.
  lemma BurstGrows(front: seq<Request>, r: Request, window: nat)
    requires Times(front, r.tenant) != []
    ensures var trace := front + [r];
            && Times(trace, r.tenant) != [] && Latest(trace, r.tenant) == r.at
            && Burst(Times(trace, r.tenant), window) ==
               if r.at - Latest(front, r.tenant) >= window then 1 else 1 + Burst(Times(front, r.tenant), window)
  {
    var trace, earlier := front + [r], Times(front, r.tenant);
    assert trace[..|front|] == front;
    assert Times(trace, r.tenant) == earlier + [r.at];
    assert (earlier + [r.at])[..|earlier|] == earlier;
  }

  // The stored counter is the length of the tenant's current burst; other tenants do not matter.
  lemma {:induction false} CounterIsBurst(trace: seq<Request>, tenant: string, window: nat)
    ensures var times := Times(trace, tenant); var c := After(trace, window);
            if times == [] then tenant !in c
            else tenant in c && c[tenant] == Counter(Burst(times, window), At(times[|times| - 1] + window))
  {
    if trace != [] {
      var front := trace[..|trace| - 1];
      CounterIsBurst(front, tenant, window);
      var r := trace[|trace| - 1];
      assert trace == front + [r];
      if r.tenant == tenant && Times(front, tenant) != [] {
        BurstGrows(front, r, window);
      }
    }
  }

  // A request is admitted iff at most `limit` of its tenant's requests, itself included, have arrived
  // since the last gap of at least a window.
  lemma AdmittedIffBurstFits(trace: seq<Request>, k: nat, limit: nat, window: nat)
    requires k < |trace|
    ensures Admitted(trace, k, limit, window) <==> Burst(Times(trace[..k + 1], trace[k].tenant), window) <= limit
  {
    CounterIsBurst(trace[..k + 1], trace[k].tenant, window);
    assert trace[..k + 1][k] == trace[k];
    assert trace[k].at in Times(trace[..k + 1], trace[k].tenant);
  }

  // ---- The bound on any window-long interval ----

  predicate Within(r: Request, tenant: string, from: int, window: nat) {
    r.tenant == tenant && from <= r.at < from + window
  }

  // Admitted requests of a tenant in [from, from + window).
  function AdmittedWithin(trace: seq<Request>, tenant: string, from: int, limit: nat, window: nat): nat {
    if trace == [] then 0
    else
      AdmittedWithin(trace[..|trace| - 1], tenant, from, limit, window)
      + (if Within(trace[|trace| - 1], tenant, from, window) && LastAdmitted(trace, limit, window) then 1 else 0)
  }

  lemma {:induction false} TimesBelow(trace: seq<Request>, tenant: string, bound: int)
    requires forall k :: 0 <= k < |trace| ==> trace[k].at <= bound
    ensures forall i :: 0 <= i < |Times(trace, tenant)| ==> Times(trace, tenant)[i] <= bound
  {
    if trace != [] {
      TimesBelow(trace[..|trace| - 1], tenant, bound);
    }
  }

  // While the tenant's latest request is before the end of the interval, its current burst covers every
  // request of the tenant admitted in the interval.
  lemma {:induction false} IntervalWithinBurst(trace: seq<Request>, tenant: string, from: int, limit: nat, window: nat)
    requires Chronological(trace)
    ensures var n := AdmittedWithin(trace, tenant, from, limit, window);
            && n <= limit
            && (n > 0 ==> Times(trace, tenant) != [] && Latest(trace, tenant) >= from)
            && (n > 0 && Latest(trace, tenant) < from + window ==> n <= Burst(Times(trace, tenant), window))
  {
    if trace != [] {
      var last := |trace| - 1;
      var front, r := trace[..last], trace[last];
      assert trace == front + [r];
      IntervalWithinBurst(front, tenant, from, limit, window);
      if r.tenant == tenant {
        CounterIsBurst(trace, tenant, window);
        TimesBelow(front, tenant, r.at);
        assert Times(trace, tenant) == Times(front, tenant) + [r.at];
        if Times(front, tenant) != [] {
          BurstGrows(front, r, window);
          assert Latest(front, tenant) <= r.at;
        }
        assert LastAdmitted(trace, limit, window) ==> Burst(Times(trace, tenant), window) <= limit;
      }
    }
  }

  // For every trace, any half-open interval as long as the window admits at most `limit` requests of a tenant.
  lemma RateBound(trace: seq<Request>, tenant: string, from: int, limit: nat, window: nat)
    requires Chronological(trace)
    ensures AdmittedWithin(trace, tenant, from, limit, window) <= limit
  {
    IntervalWithinBurst(trace, tenant, from, limit, window);
  }

  // ---- Not a sliding window ----

  // A single tenant's requests, consecutive ones less than a window apart.
  ghost predicate NeverPauses(trace: seq<Request>, tenant: string, window: nat) {
    && (forall i :: 0 <= i < |trace| ==> trace[i].tenant == tenant)
    && (forall i :: 0 <= i < |trace| - 1 ==> trace[i + 1].at - trace[i].at < window)
  }

  lemma {:induction false} OneLongBurst(trace: seq<Request>, tenant: string, window: nat)
    requires NeverPauses(trace, tenant, window)
    ensures |Times(trace, tenant)| == |trace|
    ensures trace != [] ==> Latest(trace, tenant) == trace[|trace| - 1].at
    ensures Burst(Times(trace, tenant), window) == |trace|
  {
    if |trace| == 1 {
      assert Times(trace, tenant) == [trace[0].at] by { assert Times(trace[..0], tenant) == []; }
    } else if trace != [] {
      var last := |trace| - 1;
      var front, r := trace[..last], trace[last];
      assert r.at - front[last - 1].at < window by {
        assert trace[last - 1 + 1].at - trace[last - 1].at < window;
      }
      assert NeverPauses(front, tenant, window);
      OneLongBurst(front, tenant, window);
      BurstGrows(front, r, window);
      assert front + [r] == trace;
    }
  }

  // However slow, a sender that never pauses for a whole window is refused for ever after its first
  // `limit` requests.
  lemma SteadySenderStarves(trace: seq<Request>, tenant: string, k: nat, limit: nat, window: nat)
    requires NeverPauses(trace, tenant, window) && k < |trace|
    ensures Admitted(trace, k, limit, window) <==> k < limit
  {
    AdmittedIffBurstFits(trace, k, limit, window);
    OneLongBurst(trace[..k + 1], tenant, window);
  }

  // A sliding window would count only the requests of the last window.
  function Recent(trace: seq<Request>, now: int, window: nat): nat {
    if trace == [] then 0
    else Recent(trace[..|trace| - 1], now, window) + (if now - window < trace[|trace| - 1].at <= now then 1 else 0)
  }

  lemma {:induction false} OldRequestsIgnored(trace: seq<Request>, now: int, window: nat)
    requires forall i :: 0 <= i < |trace| ==> trace[i].at <= now - window
    ensures Recent(trace, now, window) == 0
  {
    if trace != [] {
      OldRequestsIgnored(trace[..|trace| - 1], now, window);
    }
  }

  // With every gap at least half a window no three requests share one, so a sliding limit of two would admit
  // them all; this limiter refuses the third and every later one.
  lemma SlidingWindowWouldAdmit(trace: seq<Request>, tenant: string, k: nat, window: nat)
    requires NeverPauses(trace, tenant, window) && Chronological(trace) && k < |trace|
    requires forall i :: 0 <= i < |trace| - 1 ==> 2 * (trace[i + 1].at - trace[i].at) >= window
    ensures Recent(trace[..k + 1], trace[k].at, window) <= 2
    ensures Admitted(trace, k, 2, window) <==> k < 2
  {
    SteadySenderStarves(trace, tenant, k, 2, window);
    assert trace[..k + 1][..k] == trace[..k];
    if k > 0 {
      assert trace[..k][..k - 1] == trace[..k - 1];
      if k > 1 {
        assert 2 * (trace[k - 2 + 1].at - trace[k - 2].at) >= window;
        assert 2 * (trace[k - 1 + 1].at - trace[k - 1].at) >= window;
      }
      OldRequestsIgnored(trace[..k - 1], trace[k].at, window);
    }
  }
}
