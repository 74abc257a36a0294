// What becomes of a channel job: acknowledged, retried, deferred, dead-lettered or dropped.
module Disposition {
  import opened Faults
  import Subjects

  const DEFAULT_MAX_DELIVER: nat := 5

  // How the worker's handler ended. Crashed covers everything that leaves the message unacknowledged
  // without a reply: a panic, a lost ack, a killed process.
  datatype Outcome = Handled | Deferred | Failed | Crashed

  // One delivery of the message: the handler's outcome, whether the delivery metadata could be read, and
  // the fate of the dead-letter publish should one be attempted.
  datatype Delivery = Delivery(outcome: Outcome, metadata: bool, publish: Fault)

  datatype DeadLetter = DeadLetter(onSubject: string, subject: string, data: string, delivered: nat)

  // Dropped: the server has used up the message's deliveries without an ack or a termination.
  datatype Fate = Pending | Acked | Terminated | Dropped

  datatype Message = Message(subject: string, data: string, delivered: nat, fate: Fate, letters: seq<DeadLetter>)

  function Fresh(subject: string, data: string): Message {
    Message(subject, data, 0, Pending, [])
  }

  // A negative or missing acknowledgement: delivered again unless the server's limit is reached.
  function Redeliver(m: Message, serverMax: nat): Message {
    if m.delivered >= serverMax then m.(fate := Dropped) else m
  }

  function LetterOf(m: Message, delivered: nat): DeadLetter {
    DeadLetter(Subjects.DlqSubject(Subjects.TenantFromSubject(m.subject)), m.subject, m.data, delivered)
  }

  // The failure policy: nak until the handler's limit, then dead-letter and terminate; nak when the
  // dead-letter publish reports an error.
  function AfterFailure(m: Message, d: Delivery, serverMax: nat, handlerMax: nat): Message {
    var delivered := if d.metadata then m.delivered else 1;
    if delivered < handlerMax then Redeliver(m, serverMax)
    else
      var m1 := if d.publish == Rejected then m else m.(letters := m.letters + [LetterOf(m, delivered)]);
      if d.publish == NoFault then m1.(fate := Terminated) else Redeliver(m1, serverMax)
  }

  function Deliver(m: Message, d: Delivery, serverMax: nat, handlerMax: nat): Message {
    if m.fate != Pending then m
    else
      var m1 := m.(delivered := m.delivered + 1);
      match d.outcome
      case Handled => m1.(fate := Acked)
      case Deferred => Redeliver(m1, serverMax)
      case Crashed => Redeliver(m1, serverMax)
      case Failed => AfterFailure(m1, d, serverMax, handlerMax)
  }

  function DeliverAll(m: Message, ds: seq<Delivery>, serverMax: nat, handlerMax: nat): Message {
    if ds == [] then m
    else Deliver(DeliverAll(m, ds[..|ds| - 1], serverMax, handlerMax), ds[|ds| - 1], serverMax, handlerMax)
  }

  // A message on the wire, as the consumer loop handles it.
  class Envelope {
    const subject: string
    const data: string
    var delivered: nat
    var fate: Fate
    var letters: seq<DeadLetter>

    constructor (subject: string, data: string)
      ensures State() == Fresh(subject, data)
    {
      this.subject, this.data := subject, data;
      delivered, fate, letters := 0, Pending, [];
    }

    function State(): Message
      reads this
    {
      Message(subject, data, delivered, fate, letters)
    }

    method Nak(serverMax: nat)
      modifies this
      ensures State() == Redeliver(old(State()), serverMax)
    {
      if delivered >= serverMax {
        fate := Dropped;
      }
    }

    method HandleFailure(d: Delivery, serverMax: nat, handlerMax: nat)
      modifies this
      ensures State() == AfterFailure(old(State()), d, serverMax, handlerMax)
    {
      var seen := 1;
      if d.metadata {
        seen := delivered;
      }
      if seen < handlerMax {
        Nak(serverMax);
        return;
      }
      if d.publish != Rejected {
        letters := letters + [LetterOf(State(), seen)];
      }
      if d.publish != NoFault {
        Nak(serverMax);
        return;
      }
      fate := Terminated;
    }

    // One turn of a worker's consume loop.
    method Process(d: Delivery, serverMax: nat, handlerMax: nat)
      modifies this
      ensures State() == Deliver(old(State()), d, serverMax, handlerMax)
    {
      if fate != Pending {
        return;
      }
      delivered := delivered + 1;
      if d.outcome == Handled {
        fate := Acked;
      } else if d.outcome == Failed {
        HandleFailure(d, serverMax, handlerMax);
      } else {
        Nak(serverMax);
      }
    }
  }

  // ---- With one limit on both sides, as every channel worker is configured ----

  function Life(subject: string, data: string, ds: seq<Delivery>): Message {
    DeliverAll(Fresh(subject, data), ds, DEFAULT_MAX_DELIVER, DEFAULT_MAX_DELIVER)
  }

  // The deliveries before the k-th all left the message to be tried again.
  ghost predicate Unsettled(ds: seq<Delivery>, k: nat) {
    forall i :: 0 <= i < k && i < |ds| ==> ds[i].outcome != Handled
  }

  predicate DeadLetters(d: Delivery) {
    d.outcome == Failed && d.metadata && d.publish == NoFault
  }

  // A last delivery that neither acknowledges nor dead-letters.
  predicate Loses(d: Delivery) {
    d.outcome != Handled && !DeadLetters(d)
  }

  // The letters a history leaves behind: one if its fifth delivery got as far as the publish and the
  // publish was not rejected.
  function LettersOf(subject: string, data: string, ds: seq<Delivery>): seq<DeadLetter> {
    if |ds| >= 5 && (forall i :: 0 <= i < 4 ==> ds[i].outcome != Handled)
       && ds[4].outcome == Failed && ds[4].metadata && ds[4].publish != Rejected
    then [LetterOf(Fresh(subject, data), 5)] else []
  }

  lemma {:induction false} LifeExact(subject: string, data: string, ds: seq<Delivery>)
    ensures var m := Life(subject, data, ds);
            && m.subject == subject && m.data == data && m.delivered <= 5
            && (m.fate == Pending <==> |ds| < 5 && Unsettled(ds, 5))
            && (m.fate == Acked <==> !Unsettled(ds, 5))
            && (m.fate == Terminated <==> |ds| >= 5 && Unsettled(ds, 5) && DeadLetters(ds[4]))
            && (m.fate == Dropped <==> |ds| >= 5 && Unsettled(ds, 5) && Loses(ds[4]))
            && (m.fate == Pending ==> m.delivered == |ds|)
            && m.letters == LettersOf(subject, data, ds)
  {
    if ds != [] {
      var n := |ds| - 1;
      LifeExact(subject, data, ds[..n]);
      assert Unsettled(ds, 5) <==> Unsettled(ds[..n], 5) && (n < 5 ==> ds[n].outcome != Handled);
    }
  }

  // Every channel message is settled within five deliveries; it is never both acknowledged and
  // dead-lettered; at most one dead letter is written, carrying the original subject and data to the
  // tenant's own dead-letter subject; and it is lost exactly when no delivery succeeds and the fifth is
  // deferred, crashes, or fails without its dead-letter publish being confirmed.
  lemma JobSettles(tenant: string, channel: string, data: string, ds: seq<Delivery>)
    requires Subjects.DotFree(tenant) && |ds| >= 5
    ensures var subject := Subjects.ChannelSubject(tenant, channel);
            var m := Life(subject, data, ds);
            && m.fate != Pending && m.delivered <= 5
            && (m.fate == Acked ==> m.letters == [])
            && (m.fate == Terminated ==> |m.letters| == 1)
            && |m.letters| <= 1
            && (forall l :: l in m.letters ==> l == DeadLetter(Subjects.DlqSubject(tenant), subject, data, 5))
            && (m.fate == Dropped <==> (forall i :: 0 <= i < 4 ==> ds[i].outcome != Handled) && Loses(ds[4]))
  {
    LifeExact(Subjects.ChannelSubject(tenant, channel), data, ds);
    Subjects.SubjectNamesTenant(tenant, channel);
  }

  // ---- With different limits on the two sides ----

  lemma {:induction false} PoisonProgress(m: Message, n: nat, serverMax: nat, handlerMax: nat)
    requires m.fate == Pending && m.delivered == 0 && m.letters == []
    requires 1 <= serverMax && 1 <= handlerMax
    ensures var m' := DeliverAll(m, seq(n, i => Delivery(Failed, true, NoFault)), serverMax, handlerMax);
            && (m'.fate == Pending <==> n < serverMax && n < handlerMax)
            && (m'.fate == Pending ==> m'.delivered == n)
            && (m'.fate == Terminated <==> n >= handlerMax && handlerMax <= serverMax)
  {
    var ds := seq(n, i => Delivery(Failed, true, NoFault));
    if n > 0 {
      PoisonProgress(m, n - 1, serverMax, handlerMax);
      assert ds[..n - 1] == seq(n - 1, i => Delivery(Failed, true, NoFault));
    }
  }

  // A job that always fails is dead-lettered, rather than silently dropped, exactly when the server's
  // delivery limit is at least the handler's.
  lemma PoisonNeedsServerLimit(subject: string, data: string, n: nat, serverMax: nat, handlerMax: nat)
    requires 1 <= serverMax && 1 <= handlerMax && n >= serverMax
    ensures var ds := seq(n, i => Delivery(Failed, true, NoFault));
            DeliverAll(Fresh(subject, data), ds, serverMax, handlerMax).fate ==
            if handlerMax <= serverMax then Terminated else Dropped
  {
    PoisonProgress(Fresh(subject, data), n, serverMax, handlerMax);
    NeverAcked(Fresh(subject, data), n, serverMax, handlerMax);
  }

  lemma {:induction false} NeverAcked(m: Message, n: nat, serverMax: nat, handlerMax: nat)
    requires m.fate == Pending
    ensures DeliverAll(m, seq(n, i => Delivery(Failed, true, NoFault)), serverMax, handlerMax).fate != Acked
  {
    if n > 0 {
      NeverAcked(m, n - 1, serverMax, handlerMax);
      assert seq(n, i => Delivery(Failed, true, NoFault))[..n - 1] == seq(n - 1, i => Delivery(Failed, true, NoFault));
    }
  }
}
