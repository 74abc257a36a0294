// The SMS worker: which sends leave the building, and what becomes of the others.
module SmsWorker {
  import opened Faults
  import opened Disposition
  import opened Attempts
  import Window

  // What the model leaves abstract: the hash of a number, and regular expressions.
  datatype World = World(hash: string -> string, compiles: string -> bool, matches: (string, string) -> bool)

  datatype DltRow = DltRow(
    id: string,
    tenant: string,
    channel: string,
    carrier: string,
    category: string,
    pattern: string,
    status: string
  )

  datatype Suppression = Suppression(tenant: string, channel: string, hash: string)

  // The tables the pipeline reads, and the notification statuses it writes. Phones are per subscriber.
  datatype Db = Db(
    phones: map<(string, string), string>,
    suppressions: set<Suppression>,
    registry: set<string>,
    dlt: set<DltRow>,
    statuses: map<string, string>
  )

  datatype Job = Job(tenant: string, notification: string, subscriber: string)

  // The statements of one attempt, in program order.
  const BEGIN: nat := 0
  const SET_TENANT: nat := 1
  const READ_PHONE: nat := 2
  const READ_SUPPRESSION: nat := 3
  const MARK_SUPPRESSED: nat := 4
  const READ_TEMPLATE: nat := 5
  const LOAD_DLT: nat := 6
  const READ_CATEGORY: nat := 7
  const READ_REGISTRY: nat := 8
  const MARK_BLOCKED: nat := 9
  const READ_SENDER: nat := 10
  const LOAD_ROUTING: nat := 11
  const MARK_SENT: nat := 12

  // One attempt's environment: the order the database lists the DLT rows in, the rendered body if rendering
  // succeeds, the three clock reads, the results of each configured and each built-in provider, and faults.
  datatype Env = Env(
    order: seq<DltRow>,
    body: string,
    renders: bool,
    testRead: int,
    resumeRead: int,
    untilRead: int,
    routed: seq<bool>,
    builtIn: seq<bool>,
    faults: seq<Fault>,
    commit: Fault
  )

  predicate Ok(env: Env, statement: nat) {
    Succeeds(env.faults, statement)
  }

  // The row order is some listing of the table.
  ghost predicate Lists(order: seq<DltRow>, table: set<DltRow>) {
    forall r :: r in order <==> r in table
  }

  // ---- Template matching ----

  predicate Approved(r: DltRow, tenant: string, carrier: string) {
    r.tenant == tenant && r.channel == "sms" && r.carrier in {carrier, "all"} && r.status == "approved"
  }

  predicate Usable(w: World, r: DltRow, tenant: string, carrier: string) {
    Approved(r, tenant, carrier) && w.compiles(r.pattern)
  }

  function Loaded(w: World, rows: seq<DltRow>, tenant: string, carrier: string): seq<DltRow> {
    if rows == [] then []
    else
      var rest := Loaded(w, rows[1..], tenant, carrier);
      if Usable(w, rows[0], tenant, carrier) then [rows[0]] + rest else rest
  }

  // The scan of the query's rows; a pattern that does not compile is skipped.
  method LoadApprovedTemplates(w: World, rows: seq<DltRow>, tenant: string, carrier: string)
    returns (loaded: seq<DltRow>)
    ensures loaded == Loaded(w, rows, tenant, carrier)
  {
    loaded := [];
    for i := 0 to |rows|
      invariant loaded + Loaded(w, rows[i..], tenant, carrier) == Loaded(w, rows, tenant, carrier)
    {
      assert rows[i..][1..] == rows[i + 1..];
      if Usable(w, rows[i], tenant, carrier) {
        loaded := loaded + [rows[i]];
      }
    }
  }

  datatype Match = NoMatch | Matched(row: DltRow)

  function FirstMatch(w: World, templates: seq<DltRow>, body: string): Match {
    if templates == [] then NoMatch
    else if w.matches(templates[0].pattern, body) then Matched(templates[0])
    else FirstMatch(w, templates[1..], body)
  }

  method MatchTemplate(w: World, templates: seq<DltRow>, body: string) returns (m: Match)
    ensures m == FirstMatch(w, templates, body)
  {
    for i := 0 to |templates|
      invariant FirstMatch(w, templates, body) == FirstMatch(w, templates[i..], body)
    {
      assert templates[i..][1..] == templates[i + 1..];
      if w.matches(templates[i].pattern, body) {
        return Matched(templates[i]);
      }
    }
    m := NoMatch;
  }

  function MatchFor(w: World, tenant: string, env: Env): Match {
    FirstMatch(w, Loaded(w, env.order, tenant, "all"), env.body)
  }

  // An approved SMS row of the tenant, for all carriers, whose pattern compiles and matches.
  predicate Candidate(w: World, r: DltRow, tenant: string, body: string) {
    && r.tenant == tenant && r.channel == "sms" && r.carrier == "all" && r.status == "approved"
    && w.compiles(r.pattern) && w.matches(r.pattern, body)
  }

  // The first candidate among the rows.
  ghost predicate IsFirst(w: World, rows: seq<DltRow>, tenant: string, body: string, row: DltRow) {
    exists i :: 0 <= i < |rows| && rows[i] == row && forall j :: 0 <= j < i ==> !Candidate(w, rows[j], tenant, body)
  }

  lemma FirstGoesOn(w: World, rows: seq<DltRow>, tenant: string, body: string, row: DltRow)
    requires rows != [] && !Candidate(w, rows[0], tenant, body) && IsFirst(w, rows[1..], tenant, body, row)
    ensures IsFirst(w, rows, tenant, body, row)
  {
    var rest := rows[1..];
    var i :| 0 <= i < |rest| && rest[i] == row && forall j :: 0 <= j < i ==> !Candidate(w, rest[j], tenant, body);
    assert rows[i + 1] == row;
    forall j | 0 <= j < i + 1 ensures !Candidate(w, rows[j], tenant, body) {
      if j > 0 {
        assert rest[j - 1] == rows[j];
      }
    }
  }

  // The matched row is the first usable row of the table that matches, and there is one whenever any row does.
  lemma {:induction false} MatchIsCandidate(w: World, rows: seq<DltRow>, tenant: string, body: string)
    ensures var m := FirstMatch(w, Loaded(w, rows, tenant, "all"), body);
            && (m.Matched? ==> Candidate(w, m.row, tenant, body) && IsFirst(w, rows, tenant, body, m.row))
            && (m.NoMatch? ==> forall r :: r in rows ==> !Candidate(w, r, tenant, body))
  {
    if rows != [] {
      MatchIsCandidate(w, rows[1..], tenant, body);
      var rest := Loaded(w, rows[1..], tenant, "all");
      assert ([rows[0]] + rest)[1..] == rest;
      if !Candidate(w, rows[0], tenant, body) && FirstMatch(w, rest, body).Matched? {
        FirstGoesOn(w, rows, tenant, body, FirstMatch(w, rest, body).row);
      }
    }
  }

  // ---- The pipeline ----

  // The status update is best-effort: its failure only aborts the transaction.
  function Marked(env: Env, statement: nat, status: string): Report {
    if Ok(env, statement) then Report(Done(0), false, 0, status) else Quit(Done(0), true)
  }

  predicate Suppressed(w: World, db: Db, tenant: string, phone: string) {
    Suppression(tenant, "sms", w.hash(phone)) in db.suppressions
  }

  predicate Registered(w: World, db: Db, phone: string) {
    w.hash(phone) in db.registry
  }

  function PhoneOf(db: Db, job: Job): string {
    if (job.subscriber, job.tenant) in db.phones then db.phones[(job.subscriber, job.tenant)] else ""
  }

  // The category as the worker sees it: a failed read leaves it empty.
  function CategorySeen(env: Env, row: DltRow): string {
    if Ok(env, READ_CATEGORY) then row.category else ""
  }

  function Send(env: Env, aborted0: bool): Report {
    var aborted1 := aborted0 || !Ok(env, READ_SENDER);
    var routable := !aborted1 && Ok(env, LOAD_ROUTING);
    var sending := Try(if routable && env.routed != [] then env.routed else env.builtIn);
    match sending
    case NoProvider => Quit(Panic, !routable)
    case Undelivered(n) => Report(Error, !routable, n, "")
    case Delivered(n) =>
      if routable && Ok(env, MARK_SENT) then Report(Done(0), false, n, "sent")
      else Report(Error, true, n, "")
  }

  function Gate(w: World, db: Db, phone: string, row: DltRow, env: Env): Report {
    if CategorySeen(env, row) != "promotional" then Send(env, !Ok(env, READ_CATEGORY))
    else if !Ok(env, READ_REGISTRY) then Quit(Error, true)
    else if Registered(w, db, phone) then Marked(env, MARK_BLOCKED, "suppressed")
    else if !Window.IsOpen(env.testRead) then Quit(Done(Window.Deferral(env.resumeRead, env.untilRead)), false)
    else Send(env, false)
  }

  function Pipeline(w: World, db: Db, job: Job, env: Env): Report {
    var phone := PhoneOf(db, job);
    if !Ok(env, READ_PHONE) || phone == "" then Quit(Error, !Ok(env, READ_PHONE))
    else if !Ok(env, READ_SUPPRESSION) then Quit(Error, true)
    else if Suppressed(w, db, job.tenant, phone) then Marked(env, MARK_SUPPRESSED, "suppressed")
    else if !Ok(env, READ_TEMPLATE) || !env.renders then Quit(Error, !Ok(env, READ_TEMPLATE))
    else if !Ok(env, LOAD_DLT) then Quit(Error, true)
    else
      match MatchFor(w, job.tenant, env)
      case NoMatch => Quit(Done(0), false)
      case Matched(row) => Gate(w, db, phone, row, env)
  }

  // The whole attempt: the pipeline in its transaction, then the reply to the bus.
  function Attempt(w: World, db: Db, job: Job, env: Env): Report {
    if !Ok(env, BEGIN) || !Ok(env, SET_TENANT) then Quit(Error, true)
    else
      var r := Pipeline(w, db, job, env);
      if r.ending.Done? && !(Commits(r.aborted, env.commit) && env.commit == NoFault) then r.(ending := Error) else r
  }

  // Nothing since the template match has failed the transaction.
  predicate Routable(env: Env) {
    Ok(env, READ_CATEGORY) && Ok(env, READ_SENDER) && Ok(env, LOAD_ROUTING)
  }

  // Some provider took the message.
  predicate Accepts(w: World, db: Db, job: Job, env: Env) {
    && Attempt(w, db, job, env).calls > 0
    && Try(if Routable(env) && env.routed != [] then env.routed else env.builtIn).Delivered?
  }

  // And the worker got to write that down.
  predicate Records(env: Env) {
    Routable(env) && Ok(env, MARK_SENT) && env.commit == NoFault
  }

  // An attempt that a provider accepts ends acknowledged if it is recorded, and failed, to be made again, if not.
  lemma AcceptedEnds(w: World, db: Db, job: Job, env: Env)
    requires Accepts(w, db, job, env)
    ensures OutcomeOf(Attempt(w, db, job, env).ending) == if Records(env) then Handled else Failed
  {
    TryExact(if Routable(env) && env.routed != [] then env.routed else env.builtIn);
  }

  function StatusesAfter(db: Db, job: Job, env: Env, r: Report): map<string, string> {
    if r.status != "" && Commits(r.aborted, env.commit) then db.statuses[job.notification := r.status] else db.statuses
  }

  // A job whose promotional window opened between the last two clock reads is acknowledged without a send.
  lemma AckedUnsent(w: World, db: Db, job: Job, env: Env)
    requires env.testRead <= env.resumeRead <= env.untilRead
    requires var r := Attempt(w, db, job, env);
             r.ending.Done? && r.calls == 0 && r.status == "" && MatchFor(w, job.tenant, env).Matched?
    requires !Suppressed(w, db, job.tenant, PhoneOf(db, job)) && !Registered(w, db, PhoneOf(db, job))
    ensures !Window.InSendingHours(env.testRead)
    ensures OutcomeOf(Attempt(w, db, job, env).ending) == Handled <==> Window.ResumeAt(env.resumeRead) <= env.untilRead
  {
    TryExact(env.routed);
    TryExact(env.builtIn);
    Window.OpenInSendingHours(env.testRead);
  }

  // ---- A job with nothing failing, in its own terms ----

  // Nothing fails, the database lists its table, and the clock does not run backwards.
  ghost predicate Clean(db: Db, env: Env) {
    && env.faults == [] && env.commit == NoFault && Lists(env.order, db.dlt)
    && env.testRead <= env.resumeRead <= env.untilRead
  }

  predicate HasPhone(db: Db, job: Job, phone: string) {
    (job.subscriber, job.tenant) in db.phones && db.phones[(job.subscriber, job.tenant)] == phone && phone != ""
  }

  // How the attempt ends: the outcome, the provider calls, and the statuses it leaves.
  predicate Ends(w: World, db: Db, job: Job, env: Env, outcome: Outcome, calls: nat, statuses: map<string, string>) {
    var r := Attempt(w, db, job, env);
    && OutcomeOf(r.ending) == outcome && r.calls == calls
    && Step(w, System(db, []), Deliver(job, env)).db == db.(statuses := statuses)
  }

  // Whether the message gets as far as a template: it fails without a number or a rendering, and is acknowledged
  // unsent, recorded as suppressed, to a suppressed number, and unrecorded without a matching approved template.
  lemma {:induction false} CleanJobStops(w: World, db: Db, job: Job, env: Env, phone: string)
    requires Clean(db, env)
    ensures (forall p :: !HasPhone(db, job, p)) ==> Ends(w, db, job, env, Failed, 0, db.statuses)
    ensures HasPhone(db, job, phone) && Suppression(job.tenant, "sms", w.hash(phone)) in db.suppressions ==>
              Ends(w, db, job, env, Handled, 0, db.statuses[job.notification := "suppressed"])
    ensures HasPhone(db, job, phone) && Suppression(job.tenant, "sms", w.hash(phone)) !in db.suppressions ==>
              && (!env.renders ==> Ends(w, db, job, env, Failed, 0, db.statuses))
              && (env.renders && (forall r :: r in db.dlt ==> !Candidate(w, r, job.tenant, env.body)) ==>
                    Ends(w, db, job, env, Handled, 0, db.statuses))
  {
    MatchIsCandidate(w, env.order, job.tenant, env.body);
    if (job.subscriber, job.tenant) in db.phones && (forall p :: !HasPhone(db, job, p)) {
      assert !HasPhone(db, job, db.phones[(job.subscriber, job.tenant)]);
    }
  }

  // The configured providers in order, or the built-in ones when none is configured: the first to accept ends it.
  ghost predicate IsSent(w: World, db: Db, job: Job, env: Env) {
    var providers := if env.routed != [] then env.routed else env.builtIn;
    if providers == [] then Ends(w, db, job, env, Crashed, 0, db.statuses)
    else if forall i :: 0 <= i < |providers| ==> !providers[i] then
      Ends(w, db, job, env, Failed, |providers|, db.statuses)
    else exists i ::
      && 0 <= i < |providers| && providers[i] && (forall j :: 0 <= j < i ==> !providers[j])
      && Ends(w, db, job, env, Handled, i + 1, db.statuses[job.notification := "sent"])
  }

  // Put off until the window opens again, counted from the last clock read.
  ghost predicate IsPutOff(w: World, db: Db, job: Job, env: Env) {
    && Ends(w, db, job, env, Deferred, 0, db.statuses)
    && exists delay ::
         && Attempt(w, db, job, env).ending == Done(delay)
         && Window.IsNextOpening(env.testRead, env.untilRead + delay)
  }

  // What becomes of a message with a matching template: promotional ones to registered numbers are recorded as
  // suppressed, promotional ones outside sending hours are put off to the next opening, all others are sent.
  ghost predicate IsTreated(w: World, db: Db, job: Job, env: Env, phone: string, row: DltRow) {
    if row.category == "promotional" && w.hash(phone) in db.registry then
      Ends(w, db, job, env, Handled, 0, db.statuses[job.notification := "suppressed"])
    else if row.category == "promotional" && !Window.InSendingHours(env.testRead) then
      Window.ClosedThroughout(env.testRead, env.untilRead + 1) ==> IsPutOff(w, db, job, env)
    else IsSent(w, db, job, env)
  }

  lemma CleanSend(w: World, db: Db, job: Job, env: Env)
    requires Clean(db, env)
    requires Attempt(w, db, job, env) == Send(env, false)
    ensures IsSent(w, db, job, env)
  {
    var providers := if env.routed != [] then env.routed else env.builtIn;
    TryExact(providers);
    if i: nat :| i < |providers| && providers[i] {
      var n := Calls(Try(providers));
      assert providers[n - 1];
      assert Ends(w, db, job, env, Handled, n - 1 + 1, db.statuses[job.notification := "sent"]);
    }
  }

  lemma CleanPutOff(w: World, db: Db, job: Job, env: Env)
    requires Clean(db, env) && !Window.InSendingHours(env.testRead)
    requires Window.ClosedThroughout(env.testRead, env.untilRead + 1)
    requires Attempt(w, db, job, env) == Quit(Done(Window.Deferral(env.resumeRead, env.untilRead)), false)
    ensures IsPutOff(w, db, job, env)
  {
    Window.ResumeIsNextOpening(env.testRead);
    Window.ThreeReads(env.testRead, env.resumeRead, env.untilRead);
    var delay := Window.Deferral(env.resumeRead, env.untilRead);
    assert Window.IsNextOpening(env.testRead, env.untilRead + delay);
  }

  lemma {:induction false} CleanJobGoesOn(w: World, db: Db, job: Job, env: Env, phone: string)
    requires Clean(db, env) && HasPhone(db, job, phone) && env.renders
    requires Suppression(job.tenant, "sms", w.hash(phone)) !in db.suppressions
    requires exists r :: r in db.dlt && Candidate(w, r, job.tenant, env.body)
    ensures exists row ::
              row in db.dlt && Candidate(w, row, job.tenant, env.body) && IsTreated(w, db, job, env, phone, row)
  {
    MatchIsCandidate(w, env.order, job.tenant, env.body);
    var row := MatchFor(w, job.tenant, env).row;
    Window.OpenInSendingHours(env.testRead);
    assert Attempt(w, db, job, env) == Gate(w, db, phone, row, env);
    if row.category == "promotional" && !Registered(w, db, phone) && !Window.IsOpen(env.testRead) {
      if Window.ClosedThroughout(env.testRead, env.untilRead + 1) {
        CleanPutOff(w, db, job, env);
      }
    } else if row.category != "promotional" || !Registered(w, db, phone) {
      CleanSend(w, db, job, env);
    }
    assert IsTreated(w, db, job, env, phone, row);
  }

  // ---- Histories ----

  // A provider call, with the tables as they stood.
  datatype Call = Call(db: Db, job: Job, env: Env)

  datatype System = System(db: Db, calls: seq<Call>)

  datatype Action =
    | Deliver(job: Job, env: Env)
    | Suppress(tenant: string, phone: string)
    | Register(phone: string)
    | PutTemplate(row: DltRow)
    | DropTemplate(row: DltRow)
    | SetPhone(tenant: string, subscriber: string, phone: string)
    | Erase(tenant: string, subscriber: string)

  function Step(w: World, s: System, a: Action): System {
    match a
    case Deliver(job, env) =>
      var r := Attempt(w, s.db, job, env);
      System(s.db.(statuses := StatusesAfter(s.db, job, env, r)), s.calls + Repeat(Call(s.db, job, env), r.calls))
    case Suppress(t, phone) =>
      s.(db := s.db.(suppressions := s.db.suppressions + {Suppression(t, "sms", w.hash(phone))}))
    case Register(phone) => s.(db := s.db.(registry := s.db.registry + {w.hash(phone)}))
    case PutTemplate(row) => s.(db := s.db.(dlt := s.db.dlt + {row}))
    case DropTemplate(row) => s.(db := s.db.(dlt := s.db.dlt - {row}))
    case SetPhone(t, sub, phone) => s.(db := s.db.(phones := s.db.phones[(sub, t) := phone]))
    case Erase(t, sub) => s.(db := s.db.(phones := s.db.phones - {(sub, t)}))
  }

  function Run(w: World, s: System, actions: seq<Action>): System {
    if actions == [] then s
    else Step(w, Run(w, s, actions[..|actions| - 1]), actions[|actions| - 1])
  }

  // Every delivery lists exactly the rows of the DLT table at that moment.
  ghost predicate Faithful(w: World, s: System, actions: seq<Action>) {
    forall k :: 0 <= k < |actions| && actions[k].Deliver? ==>
      Lists(actions[k].env.order, Run(w, s, actions[..k]).db.dlt)
  }

  // ---- Compliance of one call ----

  predicate Promotional(w: World, c: Call) {
    var m := MatchFor(w, c.job.tenant, c.env);
    m.Matched? && m.row.category == "promotional"
  }

  ghost predicate Matching(w: World, c: Call) {
    var m := MatchFor(w, c.job.tenant, c.env);
    m.Matched? && m.row in c.db.dlt && Candidate(w, m.row, c.job.tenant, c.env.body)
  }

  ghost predicate Compliant(w: World, c: Call) {
    var phone := PhoneOf(c.db, c.job);
    && phone != "" && !Suppressed(w, c.db, c.job.tenant, phone)
    && Matching(w, c)
    && (Promotional(w, c) ==> !Registered(w, c.db, phone) && Window.InSendingHours(c.env.testRead))
  }

  // The category read failed, and what it would have shown should have held the message back.
  ghost predicate Unscreened(w: World, c: Call) {
    && !Ok(c.env, READ_CATEGORY) && Promotional(w, c)
    && (Registered(w, c.db, PhoneOf(c.db, c.job)) || !Window.InSendingHours(c.env.testRead))
  }

  // An attempt that reaches a provider is compliant exactly when it was not unscreened.
  lemma CallCompliance(w: World, db: Db, job: Job, env: Env)
    requires Lists(env.order, db.dlt) && Attempt(w, db, job, env).calls > 0
    ensures var c := Call(db, job, env); var phone := PhoneOf(db, job);
            && phone != "" && !Suppressed(w, db, job.tenant, phone) && Matching(w, c)
            && (Compliant(w, c) <==> !Unscreened(w, c))
  {
    MatchIsCandidate(w, env.order, job.tenant, env.body);
    Window.OpenInSendingHours(env.testRead);
  }

  // What such an attempt does: whatever the registry and the clock say, it calls the built-in providers, and
  // since the transaction is already aborted it then reports failure, inviting redelivery.
  lemma FailedCategoryReadSends(w: World, db: Db, job: Job, env: Env)
    requires !Ok(env, READ_CATEGORY) && forall k :: 0 <= k < READ_CATEGORY && k != MARK_SUPPRESSED ==> Ok(env, k)
    requires PhoneOf(db, job) != "" && !Suppressed(w, db, job.tenant, PhoneOf(db, job)) && env.renders
    requires MatchFor(w, job.tenant, env).Matched? && env.builtIn != []
    ensures Attempt(w, db, job, env).calls == Calls(Try(env.builtIn)) > 0
    ensures OutcomeOf(Attempt(w, db, job, env).ending) == Failed
  {
    TryExact(env.builtIn);
  }

  ghost predicate CategoryReadsSucceed(actions: seq<Action>) {
    forall k :: 0 <= k < |actions| && actions[k].Deliver? ==> Ok(actions[k].env, READ_CATEGORY)
  }

  lemma {:induction false} FaithfulPrefix(w: World, s: System, actions: seq<Action>)
    requires actions != [] && Faithful(w, s, actions)
    ensures var front, a := actions[..|actions| - 1], actions[|actions| - 1];
            && Faithful(w, s, front)
            && (a.Deliver? ==> Lists(a.env.order, Run(w, s, front).db.dlt))
  {
    var front := actions[..|actions| - 1];
    forall k | 0 <= k < |front| && front[k].Deliver?
      ensures Lists(front[k].env.order, Run(w, s, front[..k]).db.dlt)
    {
      assert front[..k] == actions[..k] && front[k] == actions[k];
    }
  }

  // What every call owes, and exactly when it is more.
  ghost predicate Accounted(w: World, c: Call) {
    && PhoneOf(c.db, c.job) != "" && !Suppressed(w, c.db, c.job.tenant, PhoneOf(c.db, c.job)) && Matching(w, c)
    && (Compliant(w, c) <==> !Unscreened(w, c))
  }

  ghost predicate AllAccounted(w: World, calls: seq<Call>) {
    forall k :: 0 <= k < |calls| ==> Accounted(w, calls[k])
  }

  lemma StepKeepsAccounts(w: World, s: System, a: Action)
    requires AllAccounted(w, s.calls)
    requires a.Deliver? ==> Lists(a.env.order, s.db.dlt)
    ensures AllAccounted(w, Step(w, s, a).calls)
  {
    var calls := Step(w, s, a).calls;
    forall k | |s.calls| <= k < |calls| ensures Accounted(w, calls[k]) {
      CallCompliance(w, s.db, a.job, a.env);
    }
    assert s.calls <= calls;
    assert forall k :: 0 <= k < |s.calls| ==> calls[k] == s.calls[k];
  }

  // Over any history of deliveries, redeliveries, suppressions, registrations and template changes, every provider
  // call was for an unsuppressed number and a matching approved template, and was compliant in full exactly when it
  // was not unscreened.
  lemma {:induction false} ComplianceExact(w: World, db: Db, actions: seq<Action>)
    requires Faithful(w, System(db, []), actions)
    ensures AllAccounted(w, Run(w, System(db, []), actions).calls)
  {
    if actions != [] {
      var front, a := actions[..|actions| - 1], actions[|actions| - 1];
      FaithfulPrefix(w, System(db, []), actions);
      ComplianceExact(w, db, front);
      StepKeepsAccounts(w, Run(w, System(db, []), front), a);
    }
  }

  ghost predicate MadeIn(actions: seq<Action>, env: Env) {
    exists j :: 0 <= j < |actions| && actions[j].Deliver? && actions[j].env == env
  }

  lemma MadeLater(front: seq<Action>, a: Action, env: Env)
    requires MadeIn(front, env) || (a.Deliver? && a.env == env)
    ensures MadeIn(front + [a], env)
  {
    if MadeIn(front, env) {
      var j :| 0 <= j < |front| && front[j].Deliver? && front[j].env == env;
      assert (front + [a])[j] == front[j];
    } else {
      assert (front + [a])[|front|] == a;
    }
  }

  // Every call is made by a delivery of the history.
  lemma {:induction false} CallsAreDeliveries(w: World, db: Db, actions: seq<Action>, k: nat)
    requires k < |Run(w, System(db, []), actions).calls|
    ensures MadeIn(actions, Run(w, System(db, []), actions).calls[k].env)
  {
    var front, a := actions[..|actions| - 1], actions[|actions| - 1];
    var s := Run(w, System(db, []), front);
    assert actions == front + [a];
    if k < |s.calls| {
      CallsAreDeliveries(w, db, front, k);
    }
    MadeLater(front, a, Step(w, s, a).calls[k].env);
  }

  ghost predicate AllCompliant(w: World, calls: seq<Call>) {
    forall k :: 0 <= k < |calls| ==> Compliant(w, calls[k])
  }

  // In particular all are compliant if the category reads succeed.
  lemma {:induction false} EverySendCompliant(w: World, db: Db, actions: seq<Action>)
    requires Faithful(w, System(db, []), actions) && CategoryReadsSucceed(actions)
    ensures AllCompliant(w, Run(w, System(db, []), actions).calls)
  {
    ComplianceExact(w, db, actions);
    var calls := Run(w, System(db, []), actions).calls;
    forall k | 0 <= k < |calls| ensures Compliant(w, calls[k]) {
      CallsAreDeliveries(w, db, actions, k);
      assert Accounted(w, calls[k]);
    }
  }

  // ---- Once blocked, always blocked ----

  lemma {:induction false} BlockListsGrow(w: World, s: System, actions: seq<Action>)
    ensures s.db.suppressions <= Run(w, s, actions).db.suppressions
    ensures s.db.registry <= Run(w, s, actions).db.registry
  {
    if actions != [] {
      BlockListsGrow(w, s, actions[..|actions| - 1]);
    }
  }

  // Neither suppressed by then, nor promotional to a number registered by then unless the category read failed.
  predicate Unblocked(w: World, db: Db, c: Call) {
    && !Suppressed(w, db, c.job.tenant, PhoneOf(c.db, c.job))
    && (Promotional(w, c) && Registered(w, db, PhoneOf(c.db, c.job)) ==> !Ok(c.env, READ_CATEGORY))
  }

  ghost predicate UnblockedFrom(w: World, db: Db, calls: seq<Call>, from: nat) {
    forall k :: from <= k < |calls| ==> Unblocked(w, db, calls[k])
  }

  // Whatever happens later, whatever fails and however jobs are redelivered, a number suppressed for a tenant is never
  // called for that tenant again, and a registered number never receives promotional traffic again save through a
  // failed category read.
  lemma {:induction false} BlockedStaysBlocked(w: World, s: System, actions: seq<Action>)
    ensures |s.calls| <= |Run(w, s, actions).calls|
    ensures UnblockedFrom(w, s.db, Run(w, s, actions).calls, |s.calls|)
  {
    if actions != [] {
      var front, a := actions[..|actions| - 1], actions[|actions| - 1];
      BlockedStaysBlocked(w, s, front);
      BlockListsGrow(w, s, front);
      var s1 := Run(w, s, front);
      var calls := Step(w, s1, a).calls;
      assert forall k :: 0 <= k < |s1.calls| ==> calls[k] == s1.calls[k];
      forall k | |s1.calls| <= k < |calls| ensures Unblocked(w, s.db, calls[k]) {
        assert calls[k] == Call(s1.db, a.job, a.env);
      }
    }
  }

  // Suppressing one number blocks no other, when the hash does not collide.
  lemma SuppressionIsPrecise(w: World, db: Db, tenant: string, phone: string, other: string)
    requires w.hash(phone) == w.hash(other) ==> phone == other
    ensures Suppressed(w, Step(w, System(db, []), Suppress(tenant, phone)).db, tenant, other)
            <==> Suppressed(w, db, tenant, other) || other == phone
  {
  }

  // The same for the national registry, which knows no tenants.
  lemma RegistrationIsPrecise(w: World, db: Db, phone: string, other: string)
    requires w.hash(phone) == w.hash(other) ==> phone == other
    ensures Registered(w, Step(w, System(db, []), Register(phone)).db, other) <==>
            Registered(w, db, other) || other == phone
  {
  }

  // ---- The order of the DLT rows ----

  // Rows with the given one first.
  function Promoted(r: DltRow, rows: seq<DltRow>): seq<DltRow> {
    [r] + rows
  }

  lemma PromotedWins(w: World, r: DltRow, rows: seq<DltRow>, tenant: string, body: string)
    requires Candidate(w, r, tenant, body)
    ensures FirstMatch(w, Loaded(w, Promoted(r, rows), tenant, "all"), body) == Matched(r)
  {
    assert Promoted(r, rows)[1..] == rows;
  }

  ghost predicate SameTreatment(w: World, tenant: string, body: string, a: seq<DltRow>, b: seq<DltRow>) {
    var ma := FirstMatch(w, Loaded(w, a, tenant, "all"), body);
    var mb := FirstMatch(w, Loaded(w, b, tenant, "all"), body);
    && ma.Matched? == mb.Matched?
    && (ma.Matched? ==> (ma.row.category == "promotional") == (mb.row.category == "promotional"))
  }

  ghost predicate Unanimous(w: World, table: set<DltRow>, tenant: string, body: string) {
    forall r, q :: r in table && q in table && Candidate(w, r, tenant, body) && Candidate(w, q, tenant, body) ==>
      (r.category == "promotional") == (q.category == "promotional")
  }

  // The load has no ORDER BY: whether a body is treated as promotional is independent of the order in which the
  // database lists the table exactly when all matching approved templates agree on it.
  lemma OrderIndependentIffUnanimous(w: World, table: set<DltRow>, tenant: string, body: string)
    ensures (forall a, b :: Lists(a, table) && Lists(b, table) ==> SameTreatment(w, tenant, body, a, b))
            <==> Unanimous(w, table, tenant, body)
  {
    if Unanimous(w, table, tenant, body) {
      forall a, b | Lists(a, table) && Lists(b, table) ensures SameTreatment(w, tenant, body, a, b) {
        MatchIsCandidate(w, a, tenant, body);
        MatchIsCandidate(w, b, tenant, body);
      }
    } else {
      var r, q :| r in table && q in table && Candidate(w, r, tenant, body) && Candidate(w, q, tenant, body)
        && (r.category == "promotional") != (q.category == "promotional");
      var rows := Listing(table);
      PromotedWins(w, r, rows, tenant, body);
      PromotedWins(w, q, rows, tenant, body);
      assert Lists(Promoted(r, rows), table) && Lists(Promoted(q, rows), table);
      assert !SameTreatment(w, tenant, body, Promoted(r, rows), Promoted(q, rows));
    }
  }

  lemma {:induction false} Listing(table: set<DltRow>) returns (rows: seq<DltRow>)
    ensures Lists(rows, table)
    decreases table
  {
    rows := [];
    if table != {} {
      var r :| r in table;
      rows := Listing(table - {r});
      rows := [r] + rows;
    }
  }

  // ---- The worker as it runs ----

  class Worker {
    var db: Db
    var calls: seq<Call>
    var aborted: bool
    var pending: string
    var made: nat

    constructor (db: Db)
      ensures State() == System(db, [])
    {
      this.db, calls, aborted, pending, made := db, [], false, "", 0;
    }

    function State(): System
      reads this
    {
      System(db, calls)
    }

    // A statement's success; a failure aborts the rest of the transaction.
    method Execute(env: Env, statement: nat) returns (ok: bool)
      modifies this`aborted
      ensures ok == (!old(aborted) && Ok(env, statement)) && aborted == !ok
    {
      ok := !aborted && Ok(env, statement);
      aborted := !ok;
    }

    method SendWithFallback(env: Env) returns (sending: Sending)
      modifies this`aborted, this`made
      ensures var routable := !old(aborted) && Ok(env, LOAD_ROUTING);
              && aborted == !routable
              && sending == Try(if routable && env.routed != [] then env.routed else env.builtIn)
              && made == old(made) + Calls(sending)
    {
      var routable := Execute(env, LOAD_ROUTING);
      sending := SendInOrder(if routable && env.routed != [] then env.routed else env.builtIn);
      made := made + Calls(sending);
    }

    method Mark(env: Env, statement: nat, status: string)
      modifies this`aborted, this`pending
      ensures aborted == (old(aborted) || !Ok(env, statement))
      ensures pending == if aborted then old(pending) else status
    {
      var ok := Execute(env, statement);
      if ok {
        pending := status;
      }
    }

    method HandleJob(w: World, job: Job, env: Env) returns (ending: Ending)
      requires !aborted && pending == "" && made == 0
      modifies this`aborted, this`pending, this`made
      ensures Report(ending, aborted, made, pending) == Pipeline(w, db, job, env)
    {
      var ok := Execute(env, READ_PHONE);
      var phone := PhoneOf(db, job);
      if !ok || phone == "" { return Error; }
      ok := Execute(env, READ_SUPPRESSION);
      if !ok { return Error; }
      if Suppressed(w, db, job.tenant, phone) {
        Mark(env, MARK_SUPPRESSED, "suppressed");
        return Done(0);
      }
      ok := Execute(env, READ_TEMPLATE);
      if !ok || !env.renders { return Error; }
      ok := Execute(env, LOAD_DLT);
      if !ok { return Error; }
      var templates := LoadApprovedTemplates(w, env.order, job.tenant, "all");
      var matched := MatchTemplate(w, templates, env.body);
      if matched.NoMatch? { return Done(0); }
      var category := "";
      ok := Execute(env, READ_CATEGORY);
      if ok { category := matched.row.category; }
      if category == "promotional" {
        ok := Execute(env, READ_REGISTRY);
        if !ok { return Error; }
        if Registered(w, db, phone) {
          Mark(env, MARK_BLOCKED, "suppressed");
          return Done(0);
        }
        if !Window.IsOpen(env.testRead) {
          return Done(Window.Deferral(env.resumeRead, env.untilRead));
        }
      }
      ok := Execute(env, READ_SENDER);
      var sending := SendWithFallback(env);
      if sending.NoProvider? { return Panic; }
      if sending.Undelivered? { return Error; }
      ok := Execute(env, MARK_SENT);
      if !ok { return Error; }
      pending := "sent";
      ending := Done(0);
    }

    // A message as it comes off the queue. One that does not decode fails.
    method Handle(w: World, message: Incoming<Job>, env: Env) returns (outcome: Outcome)
      modifies this
      ensures message.Garbled? ==> outcome == Failed && State() == old(State())
      ensures message.Decoded? ==> State() == Step(w, old(State()), Deliver(message.value, env))
      ensures message.Decoded? ==> outcome == OutcomeOf(Attempt(w, old(db), message.value, env).ending)
    {
      match message
      case Garbled => outcome := Failed;
      case Decoded(job) => outcome := RunJob(w, job, env);
    }

    // One delivery: the pipeline in its transaction, then the reply that decides the message's disposition.
    method RunJob(w: World, job: Job, env: Env) returns (outcome: Outcome)
      modifies this
      ensures State() == Step(w, old(State()), Deliver(job, env))
      ensures outcome == OutcomeOf(Attempt(w, old(db), job, env).ending)
    {
      aborted, pending, made := false, "", 0;
      var ok := Execute(env, BEGIN);
      if !ok {
        return Failed;
      }
      ok := Execute(env, SET_TENANT);
      if !ok {
        return Failed;
      }
      var ending := HandleJob(w, job, env);
      calls := calls + Repeat(Call(db, job, env), made);
      if !ending.Done? {
        return OutcomeOf(ending);
      }
      if Commits(aborted, env.commit) && pending != "" {
        db := db.(statuses := db.statuses[job.notification := pending]);
      }
      if aborted || env.commit != NoFault {
        return Failed;
      }
      outcome := OutcomeOf(ending);
    }
  }
}
