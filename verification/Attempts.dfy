// What the channel workers share: trying providers in order, and turning the end of a pipeline into a
// disposition of the message.
module Attempts {
  import opened Disposition

  // ---- Providers ----

  datatype Sending = Delivered(calls: nat) | Undelivered(calls: nat) | NoProvider

  // Providers are tried in order until one accepts.
  function Try(results: seq<bool>): Sending {
    if results == [] then NoProvider
    else if results[0] then Delivered(1)
    else
      match Try(results[1..])
      case Delivered(n) => Delivered(n + 1)
      case Undelivered(n) => Undelivered(n + 1)
      case NoProvider => Undelivered(1)
  }

  // Delivered at the first accepting provider, undelivered after all of them refuse.
  lemma {:induction false} TryExact(results: seq<bool>)
    ensures match Try(results)
            case Delivered(n) => 1 <= n <= |results| && results[n - 1] && forall i :: 0 <= i < n - 1 ==> !results[i]
            case Undelivered(n) => n == |results| > 0 && forall i :: 0 <= i < n ==> !results[i]
            case NoProvider => results == []
  {
    if results != [] && !results[0] {
      TryExact(results[1..]);
      assert forall i :: 1 <= i < |results| ==> results[i] == results[1..][i - 1];
    }
  }

  function Calls(s: Sending): nat {
    match s
    case Delivered(n) => n
    case Undelivered(n) => n
    case NoProvider => 0
  }

  function Repeat<T>(c: T, n: nat): (s: seq<T>)
    ensures |s| == n && forall k :: 0 <= k < n ==> s[k] == c
  {
    seq(n, i => c)
  }

  // The provider loop.
  method SendInOrder(results: seq<bool>) returns (sending: Sending)
    ensures sending == Try(results)
  {
    TryExact(results);
    var i := 0;
    while i < |results|
      invariant 0 <= i <= |results|
      invariant forall k :: 0 <= k < i ==> !results[k]
    {
      i := i + 1;
      if results[i - 1] {
        return Delivered(i);
      }
    }
    sending := if results == [] then NoProvider else Undelivered(i);
  }

  // ---- How a pipeline ends ----

  // Acknowledge after an optional delay, fail, or panic on the nil result of an empty provider list.
  datatype Ending = Done(delay: int) | Error | Panic

  // calls: provider sends made; status: the notification status written, if any.
  datatype Report = Report(ending: Ending, aborted: bool, calls: nat, status: string)

  function Quit(ending: Ending, aborted: bool): Report {
    Report(ending, aborted, 0, "")
  }

  // A positive delay is a deferral, any other success an acknowledgement.
  function OutcomeOf(ending: Ending): Outcome {
    match ending
    case Done(d) => if d > 0 then Deferred else Handled
    case Error => Failed
    case Panic => Crashed
  }
}
