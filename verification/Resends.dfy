// The pipelines over the five deliveries of one job: when a provider accepts the same message more than once.
module Resends {
  import opened Faults
  import opened Disposition
  import opened Attempts
  import SmsWorker
  import EmailWorker

  // ---- Any channel ----

  // One delivery, and whether a provider accepts the message should it be handled.
  datatype Round = Round(delivery: Delivery, accepted: bool)

  function DeliveriesOf(rounds: seq<Round>): (ds: seq<Delivery>)
    ensures |ds| == |rounds| && forall k :: 0 <= k < |ds| ==> ds[k] == rounds[k].delivery
  {
    seq(|rounds|, k requires 0 <= k < |rounds| => rounds[k].delivery)
  }

  // The k-th delivery takes place: the message is still to be delivered after the ones before.
  ghost predicate Happens(subject: string, data: string, rounds: seq<Round>, k: nat) {
    k < |rounds| && Life(subject, data, DeliveriesOf(rounds)[..k]).fate == Pending
  }

  ghost predicate AcceptedTwice(subject: string, data: string, rounds: seq<Round>) {
    exists i, j | 0 <= i < j < |rounds| ::
      && rounds[i].accepted && rounds[j].accepted
      && Happens(subject, data, rounds, i) && Happens(subject, data, rounds, j)
  }

  ghost predicate UnacknowledgedBefore(rounds: seq<Round>, k: nat) {
    forall m :: 0 <= m < k && m < |rounds| ==> rounds[m].delivery.outcome != Handled
  }

  lemma HappensExact(subject: string, data: string, rounds: seq<Round>, k: nat)
    requires k < |rounds|
    ensures Happens(subject, data, rounds, k) <==> k < 5 && UnacknowledgedBefore(rounds, k)
  {
    var ds := DeliveriesOf(rounds);
    LifeExact(subject, data, ds[..k]);
    if k < 5 {
      assert Unsettled(ds[..k], 5) <==> UnacknowledgedBefore(rounds, k);
    }
  }

  // A second acceptance among the first five deliveries, none before it acknowledged.
  ghost predicate SecondAcceptance(rounds: seq<Round>, i: nat, j: nat) {
    i < j < 5 && j < |rounds| && rounds[i].accepted && rounds[j].accepted && UnacknowledgedBefore(rounds, j)
  }

  lemma {:induction false} TwiceIff(subject: string, data: string, rounds: seq<Round>)
    ensures AcceptedTwice(subject, data, rounds) <==> exists i: nat, j: nat :: SecondAcceptance(rounds, i, j)
  {
    forall k: nat | k < |rounds|
      ensures Happens(subject, data, rounds, k) <==> k < 5 && UnacknowledgedBefore(rounds, k)
    {
      HappensExact(subject, data, rounds, k);
    }
    if AcceptedTwice(subject, data, rounds) {
      var i, j :| 0 <= i < j < |rounds| && rounds[i].accepted && rounds[j].accepted
        && Happens(subject, data, rounds, i) && Happens(subject, data, rounds, j);
      assert SecondAcceptance(rounds, i, j);
    }
    if i: nat, j: nat :| SecondAcceptance(rounds, i, j) {
      assert UnacknowledgedBefore(rounds, i);
      assert Happens(subject, data, rounds, i) && Happens(subject, data, rounds, j);
    }
  }

  // ---- SMS ----

  // One delivery of an SMS job: the tables and the environment it meets, whether the reply to the bus is lost, and the
  // rest of its disposition.
  datatype SmsRound = SmsRound(
    db: SmsWorker.Db,
    env: SmsWorker.Env,
    replyLost: bool,
    metadata: bool,
    publish: Fault
  )

  function SmsRoundOf(w: SmsWorker.World, job: SmsWorker.Job, x: SmsRound): Round {
    var outcome := if x.replyLost then Crashed else OutcomeOf(SmsWorker.Attempt(w, x.db, job, x.env).ending);
    Round(Delivery(outcome, x.metadata, x.publish), SmsWorker.Accepts(w, x.db, job, x.env))
  }

  function SmsRounds(w: SmsWorker.World, job: SmsWorker.Job, xs: seq<SmsRound>): (rounds: seq<Round>)
    ensures |rounds| == |xs| && forall k :: 0 <= k < |xs| ==> rounds[k] == SmsRoundOf(w, job, xs[k])
  {
    seq(|xs|, k requires 0 <= k < |xs| => SmsRoundOf(w, job, xs[k]))
  }

  // The acceptance is not followed through: it is not recorded, or the acknowledgement is lost.
  predicate SmsSlips(x: SmsRound) {
    !SmsWorker.Records(x.env) || x.replyLost
  }

  // Of two accepted deliveries the first slips, and no delivery that no provider accepted is acknowledged before the
  // second.
  ghost predicate SmsSlipsTwice(w: SmsWorker.World, job: SmsWorker.Job, xs: seq<SmsRound>, i: nat, j: nat) {
    && i < j < 5 && j < |xs|
    && SmsWorker.Accepts(w, xs[i].db, job, xs[i].env) && SmsWorker.Accepts(w, xs[j].db, job, xs[j].env)
    && forall m | 0 <= m < j ::
         if SmsWorker.Accepts(w, xs[m].db, job, xs[m].env) then SmsSlips(xs[m])
         else SmsRoundOf(w, job, xs[m]).delivery.outcome != Handled
  }

  // A provider accepts the same SMS job more than once exactly when each acceptance before the last slipped: its status
  // update or an earlier statement failed, its commit failed or was not confirmed, or its acknowledgement was lost.
  lemma {:induction false} SmsAcceptedTwiceIff(
    subject: string, data: string, w: SmsWorker.World, job: SmsWorker.Job, xs: seq<SmsRound>
  )
    ensures AcceptedTwice(subject, data, SmsRounds(w, job, xs)) <==>
            exists i: nat, j: nat :: SmsSlipsTwice(w, job, xs, i, j)
  {
    var rounds := SmsRounds(w, job, xs);
    TwiceIff(subject, data, rounds);
    forall m | 0 <= m < |xs| && SmsWorker.Accepts(w, xs[m].db, job, xs[m].env)
      ensures rounds[m].delivery.outcome == Handled <==> !SmsSlips(xs[m])
    {
      SmsWorker.AcceptedEnds(w, xs[m].db, job, xs[m].env);
    }
    forall i: nat, j: nat ensures SecondAcceptance(rounds, i, j) <==> SmsSlipsTwice(w, job, xs, i, j) {
    }
  }

  // ---- Email ----

  datatype EmailRound = EmailRound(
    db: EmailWorker.Db,
    env: EmailWorker.Env,
    replyLost: bool,
    metadata: bool,
    publish: Fault
  )

  function EmailRoundOf(hash: EmailWorker.Hash, job: EmailWorker.Job, x: EmailRound): Round {
    var outcome := if x.replyLost then Crashed else OutcomeOf(EmailWorker.Attempt(hash, x.db, job, x.env).ending);
    Round(Delivery(outcome, x.metadata, x.publish), EmailWorker.Accepts(hash, x.db, job, x.env))
  }

  function EmailRounds(hash: EmailWorker.Hash, job: EmailWorker.Job, xs: seq<EmailRound>): (rounds: seq<Round>)
    ensures |rounds| == |xs| && forall k :: 0 <= k < |xs| ==> rounds[k] == EmailRoundOf(hash, job, xs[k])
  {
    seq(|xs|, k requires 0 <= k < |xs| => EmailRoundOf(hash, job, xs[k]))
  }

  predicate EmailSlips(x: EmailRound) {
    !EmailWorker.Records(x.env) || x.replyLost
  }

  ghost predicate EmailSlipsTwice(hash: EmailWorker.Hash, job: EmailWorker.Job, xs: seq<EmailRound>, i: nat, j: nat) {
    && i < j < 5 && j < |xs|
    && EmailWorker.Accepts(hash, xs[i].db, job, xs[i].env) && EmailWorker.Accepts(hash, xs[j].db, job, xs[j].env)
    && forall m | 0 <= m < j ::
         if EmailWorker.Accepts(hash, xs[m].db, job, xs[m].env) then EmailSlips(xs[m])
         else EmailRoundOf(hash, job, xs[m]).delivery.outcome != Handled
  }

  // The same for email.
  lemma {:induction false} EmailAcceptedTwiceIff(
    subject: string, data: string, hash: EmailWorker.Hash, job: EmailWorker.Job, xs: seq<EmailRound>
  )
    ensures AcceptedTwice(subject, data, EmailRounds(hash, job, xs)) <==>
            exists i: nat, j: nat :: EmailSlipsTwice(hash, job, xs, i, j)
  {
    var rounds := EmailRounds(hash, job, xs);
    TwiceIff(subject, data, rounds);
    forall m | 0 <= m < |xs| && EmailWorker.Accepts(hash, xs[m].db, job, xs[m].env)
      ensures rounds[m].delivery.outcome == Handled <==> !EmailSlips(xs[m])
    {
      EmailWorker.AcceptedEnds(hash, xs[m].db, job, xs[m].env);
    }
    forall i: nat, j: nat ensures SecondAcceptance(rounds, i, j) <==> EmailSlipsTwice(hash, job, xs, i, j) {
    }
  }
}
