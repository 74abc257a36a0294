// Email delivery and its bounce feedback: the worker's suppression gate and the provider callbacks that feed it.
module EmailWorker {
  import opened Faults
  import opened Disposition
  import opened Attempts
  import opened Condition

  datatype Subscriber = Subscriber(tenant: string, email: string)

  datatype Notification = Notification(
    tenant: string,
    subscriber: string,
    provider: string,
    messageId: string,
    status: string
  )

  datatype SuppressionKey = SuppressionKey(tenant: string, channel: string, hash: string)

  datatype DeliveryEvent = DeliveryEvent(tenant: string, notification: string, kind: string, provider: string)

  // Suppressions keep the reason they were first inserted with.
  datatype Db = Db(
    subscribers: map<string, Subscriber>,
    notifications: map<string, Notification>,
    suppressions: map<SuppressionKey, string>,
    events: seq<DeliveryEvent>
  )

  type Hash = string -> string

  datatype Job = Job(tenant: string, notification: string, subscriber: string)

  const STATUSES: set<string> := {"pending", "queued", "sent", "delivered", "failed", "skipped", "suppressed"}

  // ---- The worker ----

  const BEGIN: nat := 0
  const SET_TENANT: nat := 1
  const READ_EMAIL: nat := 2
  const READ_SUPPRESSION: nat := 3
  const MARK_SUPPRESSED: nat := 4
  const READ_TEMPLATE: nat := 5
  const LOAD_ROUTING: nat := 6
  const MARK_SENT: nat := 7

  // sentBy and messageId: the accepting provider's name and receipt.
  datatype Env = Env(
    renders: bool,
    routed: seq<bool>,
    builtIn: seq<bool>,
    sentBy: string,
    messageId: string,
    faults: seq<Fault>,
    commit: Fault
  )

  predicate Ok(env: Env, statement: nat) {
    Succeeds(env.faults, statement)
  }

  function EmailOf(db: Db, job: Job): string {
    if job.subscriber in db.subscribers && db.subscribers[job.subscriber].tenant == job.tenant
    then db.subscribers[job.subscriber].email else ""
  }

  predicate Suppressed(hash: Hash, db: Db, tenant: string, email: string) {
    SuppressionKey(tenant, "email", hash(email)) in db.suppressions
  }

  function Pipeline(hash: Hash, db: Db, job: Job, env: Env): Report {
    var email := EmailOf(db, job);
    if !Ok(env, READ_EMAIL) || email == "" then Quit(Error, !Ok(env, READ_EMAIL))
    else if !Ok(env, READ_SUPPRESSION) then Quit(Error, true)
    else if Suppressed(hash, db, job.tenant, email) then
      if Ok(env, MARK_SUPPRESSED) then Report(Done(0), false, 0, "suppressed") else Quit(Done(0), true)
    else if !Ok(env, READ_TEMPLATE) || !env.renders then Quit(Error, !Ok(env, READ_TEMPLATE))
    else
      var routable := Ok(env, LOAD_ROUTING);
      match Try(if routable && env.routed != [] then env.routed else env.builtIn)
      case NoProvider => Quit(Panic, !routable)
      case Undelivered(n) => Report(Error, !routable, n, "")
      case Delivered(n) =>
        if routable && Ok(env, MARK_SENT) then Report(Done(0), false, n, "sent") else Report(Error, true, n, "")
  }

  function Attempt(hash: Hash, db: Db, job: Job, env: Env): Report {
    if !Ok(env, BEGIN) || !Ok(env, SET_TENANT) then Quit(Error, true)
    else
      var r := Pipeline(hash, db, job, env);
      if r.ending.Done? && !(Commits(r.aborted, env.commit) && env.commit == NoFault) then r.(ending := Error) else r
  }

  // Some provider took the message.
  predicate Accepts(hash: Hash, db: Db, job: Job, env: Env) {
    && Attempt(hash, db, job, env).calls > 0
    && Try(if Ok(env, LOAD_ROUTING) && env.routed != [] then env.routed else env.builtIn).Delivered?
  }

  // And the worker got to write that down.
  predicate Records(env: Env) {
    Ok(env, LOAD_ROUTING) && Ok(env, MARK_SENT) && env.commit == NoFault
  }

  // An attempt that a provider accepts ends acknowledged if it is recorded, and failed, to be made again, if not.
  lemma AcceptedEnds(hash: Hash, db: Db, job: Job, env: Env)
    requires Accepts(hash, db, job, env)
    ensures OutcomeOf(Attempt(hash, db, job, env).ending) == if Records(env) then Handled else Failed
  {
    TryExact(if Ok(env, LOAD_ROUTING) && env.routed != [] then env.routed else env.builtIn);
  }

  // Updating a notification that is not there changes nothing.
  function WithStatus(db: Db, id: string, status: string): Db {
    if id in db.notifications
    then db.(notifications := db.notifications[id := db.notifications[id].(status := status)]) else db
  }

  function WithReceipt(db: Db, id: string, env: Env): Db {
    if id in db.notifications
    then db.(notifications := db.notifications[id :=
             db.notifications[id].(status := "sent", provider := env.sentBy, messageId := env.messageId)]) else db
  }

  function AfterAttempt(db: Db, job: Job, env: Env, r: Report): Db {
    if !Commits(r.aborted, env.commit) || r.status == "" then db
    else if r.status == "sent" then WithReceipt(db, job.notification, env)
    else WithStatus(db, job.notification, r.status)
  }

  // ---- Callbacks: which ones are acted on ----

  function TextOf(v: Value): string {
    if v.Str? then v.s else ""
  }

  datatype Callback = Callback(kind: string, messageId: string)

  // SES notifications arrive wrapped in a message string; `decode` parses it. It accepts objects, and null as the
  // empty one.
  function Unwrap(payload: Payload, decode: string -> Result<Payload>): Payload {
    var m := Field(Object(payload), "Message");
    if m.Str? && decode(m.s).Ok? then decode(m.s).value else payload
  }

  function FirstRecipient(payload: Payload): Value {
    var recipients := Field(Field(Object(payload), "bounce"), "bouncedRecipients");
    if recipients.Array? && recipients.items != [] then recipients.items[0] else Null
  }

  function ResendKind(kind: string): string {
    if kind == "email.bounced" then "bounced"
    else if kind == "email.complained" then "complained"
    else if kind == "email.delivered" then "delivered"
    else if kind == "email.opened" then "opened"
    else if kind == "email.clicked" then "clicked"
    else ""
  }

  function Extract(provider: string, payload: Payload, decode: string -> Result<Payload>): Callback {
    if provider == "ses" then
      var inner := Unwrap(payload, decode);
      var kind := TextOf(Field(Object(inner), "notificationType"));
      if kind == "Bounce" then Callback("bounced", TextOf(Field(FirstRecipient(inner), "messageId")))
      else if kind == "Complaint" then Callback("complained", "")
      else if kind == "Delivery" then Callback("delivered", TextOf(Field(Field(Object(inner), "mail"), "messageId")))
      else Callback("", "")
    else if provider == "resend" then
      var kind := ResendKind(TextOf(Field(Object(payload), "type")));
      if kind == "" then Callback("", "") else Callback(kind, TextOf(Field(Object(payload), "email_id")))
    else Callback("", "")
  }

  predicate ActedOn(c: Callback) {
    c.kind != "" && c.messageId != ""
  }

  // Which callbacks are acted on at all: from SES, deliveries and bounces that carry the message id where the
  // handler looks for it, and never a complaint, whose id it does not read; from Resend, the five known kinds.
  lemma ActedOnExactly(provider: string, payload: Payload, decode: string -> Result<Payload>)
    ensures provider == "ses" ==>
              (ActedOn(Extract(provider, payload, decode)) <==>
                var inner := Unwrap(payload, decode);
                var kind := TextOf(Field(Object(inner), "notificationType"));
                || (kind == "Bounce" && TextOf(Field(FirstRecipient(inner), "messageId")) != "")
                || (kind == "Delivery" && TextOf(Field(Field(Object(inner), "mail"), "messageId")) != ""))
    ensures provider == "resend" ==>
              (ActedOn(Extract(provider, payload, decode)) <==>
                && TextOf(Field(Object(payload), "type")) in
                     {"email.bounced", "email.complained", "email.delivered", "email.opened", "email.clicked"}
                && TextOf(Field(Object(payload), "email_id")) != "")
    ensures provider != "ses" && provider != "resend" ==> !ActedOn(Extract(provider, payload, decode))
    ensures ActedOn(Extract(provider, payload, decode)) ==>
              Extract(provider, payload, decode).kind in {"bounced", "complained", "delivered", "opened", "clicked"}
  {
  }

  // The text at the end of a path of object fields.
  predicate TextAt(fields: map<string, Value>, key: string, text: string) {
    key in fields && fields[key] == Str(text)
  }

  predicate ObjectAt(fields: map<string, Value>, key: string) {
    key in fields && fields[key].Object?
  }

  // What an SES callback is read from: the decoded message, if there is one that decodes, or the callback itself.
  predicate SesBody(payload: Payload, decode: string -> Result<Payload>, body: Payload) {
    if "Message" in payload && payload["Message"].Str? && decode(payload["Message"].s).Ok?
    then body == decode(payload["Message"].s).value else body == payload
  }

  // The id of the first bounced recipient, where SES bounces are expected to have it.
  predicate BouncedRecipient(body: Payload, messageId: string) {
    && ObjectAt(body, "bounce") && "bouncedRecipients" in body["bounce"].fields
    && var recipients := body["bounce"].fields["bouncedRecipients"];
       recipients.Array? && recipients.items != [] && recipients.items[0].Object?
       && TextAt(recipients.items[0].fields, "messageId", messageId)
  }

  // The callback says, in the provider's own words, that this happened to the message with that id.
  ghost predicate Says(
    provider: string, payload: Payload, decode: string -> Result<Payload>, kind: string, messageId: string
  ) {
    || (provider == "resend" && TextAt(payload, "email_id", messageId)
        && (|| (kind == "bounced" && TextAt(payload, "type", "email.bounced"))
            || (kind == "complained" && TextAt(payload, "type", "email.complained"))
            || (kind == "delivered" && TextAt(payload, "type", "email.delivered"))
            || (kind == "opened" && TextAt(payload, "type", "email.opened"))
            || (kind == "clicked" && TextAt(payload, "type", "email.clicked"))))
    || (provider == "ses" && exists body: Payload ::
          && SesBody(payload, decode, body)
          && (|| (kind == "bounced" && TextAt(body, "notificationType", "Bounce") && BouncedRecipient(body, messageId))
              || (kind == "delivered" && TextAt(body, "notificationType", "Delivery")
                  && ObjectAt(body, "mail") && TextAt(body["mail"].fields, "messageId", messageId))))
  }

  lemma ResendSays(payload: Payload, decode: string -> Result<Payload>, kind: string, messageId: string)
    requires kind != "" && messageId != ""
    ensures Extract("resend", payload, decode) == Callback(kind, messageId) <==>
            Says("resend", payload, decode, kind, messageId)
  {
  }

  lemma SesSays(payload: Payload, decode: string -> Result<Payload>, kind: string, messageId: string)
    requires kind != "" && messageId != ""
    ensures Extract("ses", payload, decode) == Callback(kind, messageId) <==>
            Says("ses", payload, decode, kind, messageId)
  {
    var body := Unwrap(payload, decode);
    assert SesBody(payload, decode, body);
    assert TextOf(FirstId(body)) == messageId <==> BouncedRecipient(body, messageId);
  }

  function FirstId(body: Payload): Value {
    Field(FirstRecipient(body), "messageId")
  }

  // The parser reads a kind and an id from a callback exactly when the callback says so.
  lemma {:induction false} ReadsWhatItSays(
    provider: string, payload: Payload, decode: string -> Result<Payload>, kind: string, messageId: string
  )
    requires kind != "" && messageId != ""
    ensures Extract(provider, payload, decode) == Callback(kind, messageId) <==>
            Says(provider, payload, decode, kind, messageId)
  {
    if provider == "resend" {
      ResendSays(payload, decode, kind, messageId);
    } else if provider == "ses" {
      SesSays(payload, decode, kind, messageId);
    }
  }

  // ---- Callbacks: which notification they are about ----

  // The receipt the provider gave for the notification.
  predicate Carries(db: Db, id: string, provider: string, messageId: string) {
    id in db.notifications && db.notifications[id].provider == provider && db.notifications[id].messageId == messageId
  }

  // The lookup returns some notification with that receipt whenever there is one.
  ghost predicate LookupOk(db: Db, provider: string, messageId: string, id: string) {
    (exists i :: Carries(db, i, provider, messageId)) ==> Carries(db, id, provider, messageId)
  }

  // ---- Callbacks: what they do ----

  const INSERT_EVENT: nat := 3
  const INSERT_SUPPRESSION: nat := 4
  const UPDATE_STATUS: nat := 5

  predicate IsBlock(kind: string) {
    kind in {"bounced", "complained"}
  }

  function StatusFor(kind: string): string {
    if IsBlock(kind) then "failed" else kind
  }

  function ReasonFor(kind: string): string {
    if kind == "complained" then "spam_complaint" else "hard_bounce"
  }

  // The address the suppression is computed over: empty when the read fails or finds nothing.
  function AddressFor(db: Db, n: Notification, faults: seq<Fault>): string {
    if Succeeds(faults, READ_EMAIL) && n.subscriber in db.subscribers then db.subscribers[n.subscriber].email else ""
  }

  function Insert(db: Db, key: SuppressionKey, reason: string): Db {
    if key in db.suppressions then db else db.(suppressions := db.suppressions[key := reason])
  }

  // All three effects of a callback about notification id.
  function Applied(hash: Hash, db: Db, id: string, kind: string, provider: string): Db
    requires id in db.notifications
  {
    var n := db.notifications[id];
    var db1 := db.(events := db.events + [DeliveryEvent(n.tenant, id, kind, provider)]);
    var address := AddressFor(db, n, []);
    var db2 := if IsBlock(kind) && address != ""
               then Insert(db1, SuppressionKey(n.tenant, "email", hash(address)), ReasonFor(kind)) else db1;
    WithStatus(db2, id, StatusFor(kind))
  }

  // Whether the callback's transaction commits: no statement it issues fails, and the status it writes is one
  // the table accepts.
  predicate Lands(db: Db, id: string, kind: string, faults: seq<Fault>, commit: Fault)
    requires id in db.notifications
  {
    && Succeeds(faults, BEGIN) && Succeeds(faults, SET_TENANT) && Succeeds(faults, READ_EMAIL)
    && Succeeds(faults, INSERT_EVENT)
    && (IsBlock(kind) && AddressFor(db, db.notifications[id], faults) != "" ==> Succeeds(faults, INSERT_SUPPRESSION))
    && Succeeds(faults, UPDATE_STATUS) && StatusFor(kind) in STATUSES
    && commit != Rejected
  }

  function Callbacked(
    hash: Hash, db: Db, id: string, kind: string, provider: string, faults: seq<Fault>, commit: Fault
  ): Db
    requires id in db.notifications
  {
    if Lands(db, id, kind, faults, commit) then Applied(hash, db, id, kind, provider) else db
  }

  // Opens and clicks are never recorded: the status they write violates the table's check constraint, which
  // takes the delivery event down with it.
  lemma EngagementNeverRecorded(
    hash: Hash, db: Db, id: string, kind: string, provider: string, faults: seq<Fault>, commit: Fault
  )
    requires id in db.notifications && kind in {"bounced", "complained", "delivered", "opened", "clicked"}
    ensures (forall fs, c :: Callbacked(hash, db, id, kind, provider, fs, c) == db) <==> kind in {"opened", "clicked"}
  {
    if kind !in {"opened", "clicked"} {
      var db' := Callbacked(hash, db, id, kind, provider, [], NoFault);
      assert |db'.events| == |db.events| + 1;
    }
  }

  // ---- Histories ----

  // A provider call, with the tables as they stood.
  datatype Call = Call(db: Db, job: Job)

  datatype System = System(db: Db, calls: seq<Call>)

  datatype Action =
    | Deliver(job: Job, env: Env)
    | Event(provider: string, callback: Callback, lookup: Fault, id: string, faults: seq<Fault>, commit: Fault)
    | Enqueue(id: string, n: Notification)
    | SetSubscriber(id: string, s: Subscriber)
    | Erase(id: string)

  function Step(hash: Hash, s: System, a: Action): System {
    match a
    case Deliver(job, env) =>
      var r := Attempt(hash, s.db, job, env);
      System(AfterAttempt(s.db, job, env, r), s.calls + Repeat(Call(s.db, job), r.calls))
    case Event(provider, c, lookup, id, faults, commit) =>
      if ActedOn(c) && lookup == NoFault && Carries(s.db, id, provider, c.messageId)
      then s.(db := Callbacked(hash, s.db, id, c.kind, provider, faults, commit)) else s
    case Enqueue(id, n) => s.(db := s.db.(notifications := s.db.notifications[id := n]))
    case SetSubscriber(id, sub) => s.(db := s.db.(subscribers := s.db.subscribers[id := sub]))
    case Erase(id) => s.(db := s.db.(subscribers := s.db.subscribers - {id}))
  }

  function Run(hash: Hash, s: System, actions: seq<Action>): System {
    if actions == [] then s
    else Step(hash, Run(hash, s, actions[..|actions| - 1]), actions[|actions| - 1])
  }

  // ---- A job with nothing failing, in its own terms ----

  predicate Ends(hash: Hash, db: Db, job: Job, env: Env, outcome: Outcome, calls: nat, after: Db) {
    var r := Attempt(hash, db, job, env);
    OutcomeOf(r.ending) == outcome && r.calls == calls && Step(hash, System(db, []), Deliver(job, env)).db == after
  }

  predicate HasAddress(db: Db, job: Job, email: string) {
    && job.subscriber in db.subscribers && db.subscribers[job.subscriber].tenant == job.tenant
    && db.subscribers[job.subscriber].email == email && email != ""
  }

  // The tables with the job's notification, if it is there, in this status.
  predicate Marked(before: Db, after: Db, id: string, status: string) {
    after == if id in before.notifications
             then before.(notifications := before.notifications[id := before.notifications[id].(status := status)])
             else before
  }

  // The same with the receipt of the provider that took the message.
  predicate Receipted(before: Db, after: Db, id: string, env: Env) {
    after == if id in before.notifications
             then before.(notifications := before.notifications[id := before.notifications[id].(
                    status := "sent", provider := env.sentBy, messageId := env.messageId)])
             else before
  }

  // The configured providers in order, or the built-in ones when none is configured: the first to accept ends it.
  ghost predicate IsSent(hash: Hash, db: Db, job: Job, env: Env) {
    var providers := if env.routed != [] then env.routed else env.builtIn;
    if providers == [] then Ends(hash, db, job, env, Crashed, 0, db)
    else if forall i :: 0 <= i < |providers| ==> !providers[i] then Ends(hash, db, job, env, Failed, |providers|, db)
    else exists i, after ::
      && 0 <= i < |providers| && providers[i] && (forall j :: 0 <= j < i ==> !providers[j])
      && Receipted(db, after, job.notification, env) && Ends(hash, db, job, env, Handled, i + 1, after)
  }

  // An email job fails without an address or a rendering; one to a suppressed address is acknowledged unsent and
  // recorded as suppressed; any other is sent.
  lemma {:induction false} CleanJobEnds(hash: Hash, db: Db, job: Job, env: Env, email: string)
    requires env.faults == [] && env.commit == NoFault
    ensures (forall e :: !HasAddress(db, job, e)) ==> Ends(hash, db, job, env, Failed, 0, db)
    ensures HasAddress(db, job, email) ==>
              if SuppressionKey(job.tenant, "email", hash(email)) in db.suppressions then
                exists after :: Marked(db, after, job.notification, "suppressed")
                                && Ends(hash, db, job, env, Handled, 0, after)
              else if !env.renders then Ends(hash, db, job, env, Failed, 0, db)
              else IsSent(hash, db, job, env)
  {
    if HasAddress(db, job, email) {
      if SuppressionKey(job.tenant, "email", hash(email)) in db.suppressions {
        assert Marked(db, WithStatus(db, job.notification, "suppressed"), job.notification, "suppressed");
      } else if env.renders {
        CleanSend(hash, db, job, env, email);
      }
    } else if forall e :: !HasAddress(db, job, e) {
      assert !HasAddress(db, job, EmailOf(db, job));
    }
  }

  lemma CleanSend(hash: Hash, db: Db, job: Job, env: Env, email: string)
    requires env.faults == [] && env.commit == NoFault && HasAddress(db, job, email) && env.renders
    requires SuppressionKey(job.tenant, "email", hash(email)) !in db.suppressions
    ensures IsSent(hash, db, job, env)
  {
    var providers := if env.routed != [] then env.routed else env.builtIn;
    TryExact(providers);
    if i: nat :| i < |providers| && providers[i] {
      var n := Calls(Try(providers));
      var after := WithReceipt(db, job.notification, env);
      assert providers[n - 1];
      assert Receipted(db, after, job.notification, env) && Ends(hash, db, job, env, Handled, n - 1 + 1, after);
    }
  }

  lemma {:induction false} SuppressionsGrow(hash: Hash, s: System, actions: seq<Action>, key: SuppressionKey)
    requires key in s.db.suppressions
    ensures key in Run(hash, s, actions).db.suppressions
  {
    if actions != [] {
      SuppressionsGrow(hash, s, actions[..|actions| - 1], key);
    }
  }

  // A provider is only ever called for an address that is not suppressed at that moment.
  lemma CallsOnlyUnsuppressed(hash: Hash, db: Db, job: Job, env: Env)
    requires Attempt(hash, db, job, env).calls > 0
    ensures EmailOf(db, job) != "" && !Suppressed(hash, db, job.tenant, EmailOf(db, job))
  {
  }

  // From the given position on, no call is for this address in this tenant.
  ghost predicate NoneTo(calls: seq<Call>, from: nat, tenant: string, email: string) {
    forall k :: from <= k < |calls| ==> !(calls[k].job.tenant == tenant && EmailOf(calls[k].db, calls[k].job) == email)
  }

  // From a state in which an address is suppressed for a tenant, no continuation calls a provider for it.
  lemma {:induction false} SuppressedForGood(hash: Hash, s: System, tenant: string, email: string, actions: seq<Action>)
    requires Suppressed(hash, s.db, tenant, email)
    ensures |s.calls| <= |Run(hash, s, actions).calls|
    ensures NoneTo(Run(hash, s, actions).calls, |s.calls|, tenant, email)
  {
    if actions != [] {
      var front, a := actions[..|actions| - 1], actions[|actions| - 1];
      SuppressedForGood(hash, s, tenant, email, front);
      SuppressionsGrow(hash, s, front, SuppressionKey(tenant, "email", hash(email)));
      var s1 := Run(hash, s, front);
      if a.Deliver? && Attempt(hash, s1.db, a.job, a.env).calls > 0 {
        CallsOnlyUnsuppressed(hash, s1.db, a.job, a.env);
      }
    }
  }

  // A bounce or complaint that finds its notification, of a subscriber with an address.
  ghost predicate BlocksAddress(db: Db, a: Action) {
    && a.Event? && IsBlock(a.callback.kind) && a.callback.messageId != "" && a.lookup == NoFault
    && Carries(db, a.id, a.provider, a.callback.messageId)
    && db.notifications[a.id].subscriber in db.subscribers
    && db.subscribers[db.notifications[a.id].subscriber].email != ""
  }

  // Once it commits, its event, suppression and status are all there - otherwise none of them is - and no later email
  // job to that address in that tenant reaches a provider, whatever else happens.
  lemma {:induction false} BounceStopsMail(hash: Hash, s: System, a: Action, later: seq<Action>)
    requires BlocksAddress(s.db, a)
    ensures var n := s.db.notifications[a.id];
            var email := s.db.subscribers[n.subscriber].email;
            var s1 := Step(hash, s, a);
            if Lands(s.db, a.id, a.callback.kind, a.faults, a.commit) then
              && s1.db.events == s.db.events + [DeliveryEvent(n.tenant, a.id, a.callback.kind, a.provider)]
              && s1.db.notifications == s.db.notifications[a.id := n.(status := "failed")]
              && Suppressed(hash, s1.db, n.tenant, email)
              && NoneTo(Run(hash, s1, later).calls, |s.calls|, n.tenant, email)
            else s1 == s
  {
    if Lands(s.db, a.id, a.callback.kind, a.faults, a.commit) {
      var n := s.db.notifications[a.id];
      SuppressedForGood(hash, Step(hash, s, a), n.tenant, s.db.subscribers[n.subscriber].email, later);
    }
  }

  // ---- From a send to the bounce it earns ----

  // The attempt records its receipt: it sends, commits, and its notification is there for the job's subscriber.
  ghost predicate SendsWithReceipt(hash: Hash, db: Db, a: Action) {
    && a.Deliver? && a.job.notification in db.notifications
    && db.notifications[a.job.notification].tenant == a.job.tenant
    && db.notifications[a.job.notification].subscriber == a.job.subscriber
    && Attempt(hash, db, a.job, a.env).status == "sent"
    && Commits(Attempt(hash, db, a.job, a.env).aborted, a.env.commit)
  }

  // No other notification has the receipt.
  ghost predicate UniqueReceipt(db: Db, id: string, provider: string, messageId: string) {
    forall i :: Carries(db, i, provider, messageId) ==> i == id
  }

  // A callback as the provider posts it, with what its lookup finds.
  function Posted(
    provider: string, payload: Payload, decode: string -> Result<Payload>, lookup: Fault, id: string,
    faults: seq<Fault>, commit: Fault
  ): Action {
    Event(provider, Extract(provider, payload, decode), lookup, id, faults, commit)
  }

  // The callback says that the message the attempt sent bounced, or was complained of.
  ghost predicate ReportsBounce(sent: Action, payload: Payload, decode: string -> Result<Payload>)
    requires sent.Deliver?
  {
    && sent.env.messageId != ""
    && (|| Says(sent.env.sentBy, payload, decode, "bounced", sent.env.messageId)
        || Says(sent.env.sentBy, payload, decode, "complained", sent.env.messageId))
  }

  // What a callback that says this does to the tables if it does anything.
  ghost predicate Recorded(hash: Hash, before: Db, after: Db, id: string, kind: string, provider: string)
    requires id in before.notifications
  {
    var n := before.notifications[id];
    var address := if n.subscriber in before.subscribers then before.subscribers[n.subscriber].email else "";
    var key := SuppressionKey(n.tenant, "email", hash(address));
    && after.events == before.events + [DeliveryEvent(n.tenant, id, kind, provider)]
    && after.subscribers == before.subscribers
    && after.notifications ==
         before.notifications[id := n.(status := if kind == "delivered" then "delivered" else "failed")]
    && after.suppressions ==
         if kind == "delivered" || address == "" || key in before.suppressions then before.suppressions
         else before.suppressions[key := if kind == "bounced" then "hard_bounce" else "spam_complaint"]
  }

  lemma AppliedRecords(hash: Hash, db: Db, id: string, kind: string, provider: string)
    requires id in db.notifications && kind in {"bounced", "complained", "delivered"}
    ensures Recorded(hash, db, Applied(hash, db, id, kind, provider), id, kind, provider)
    ensures Applied(hash, db, id, kind, provider) != db
  {
    assert |Applied(hash, db, id, kind, provider).events| == |db.events| + 1;
  }

  lemma CallbackedRecords(
    hash: Hash, db: Db, id: string, kind: string, provider: string, faults: seq<Fault>, commit: Fault
  )
    requires id in db.notifications && kind in {"bounced", "complained", "delivered", "opened", "clicked"}
    ensures var after := Callbacked(hash, db, id, kind, provider, faults, commit);
            && (after == db || (kind !in {"opened", "clicked"} && Recorded(hash, db, after, id, kind, provider)))
            && (faults == [] && commit == NoFault && kind !in {"opened", "clicked"} ==> after != db)
  {
    if kind !in {"opened", "clicked"} {
      AppliedRecords(hash, db, id, kind, provider);
    }
  }

  lemma SaysOneOfFive(
    provider: string, payload: Payload, decode: string -> Result<Payload>, kind: string, messageId: string
  )
    requires Says(provider, payload, decode, kind, messageId)
    ensures kind in {"bounced", "complained", "delivered", "opened", "clicked"}
  {
  }

  // A callback records, in full or not at all, what it says: a bounce or a complaint fails the notification and
  // suppresses its subscriber's address, a delivery marks it delivered and suppresses nothing, and an open or a click
  // never leaves anything. With nothing failing the first three are recorded.
  lemma {:induction false} CallbackRecords(
    hash: Hash, s: System, provider: string, payload: Payload, decode: string -> Result<Payload>, kind: string,
    messageId: string, id: string, faults: seq<Fault>, commit: Fault
  )
    requires messageId != "" && Says(provider, payload, decode, kind, messageId)
    requires Carries(s.db, id, provider, messageId)
    ensures var t := Step(hash, s, Posted(provider, payload, decode, NoFault, id, faults, commit));
            && t.calls == s.calls
            && (t.db == s.db || (kind !in {"opened", "clicked"} && Recorded(hash, s.db, t.db, id, kind, provider)))
            && (faults == [] && commit == NoFault && kind !in {"opened", "clicked"} ==> t.db != s.db)
  {
    ReadsWhatItSays(provider, payload, decode, kind, messageId);
    SaysOneOfFive(provider, payload, decode, kind, messageId);
    CallbackedRecords(hash, s.db, id, kind, provider, faults, commit);
  }

  lemma SendRecordsReceipt(hash: Hash, s: System, sent: Action)
    requires SendsWithReceipt(hash, s.db, sent)
    ensures var db := Step(hash, s, sent).db;
            && Carries(db, sent.job.notification, sent.env.sentBy, sent.env.messageId)
            && db.notifications[sent.job.notification].tenant == sent.job.tenant
            && db.notifications[sent.job.notification].subscriber == sent.job.subscriber
            && EmailOf(s.db, sent.job) != "" && EmailOf(db, sent.job) == EmailOf(s.db, sent.job)
  {
  }

  // Email that was sent under a receipt of its own and is then reported bounced under it silences the address it went
  // to: unless the callback is not recorded, which takes a failure, no later job of that tenant to that address reaches
  // a provider.
  lemma {:induction false} BouncedSendSilences(
    hash: Hash, s: System, sent: Action, payload: Payload, decode: string -> Result<Payload>, id: string,
    faults: seq<Fault>, commit: Fault, later: seq<Action>
  )
    requires SendsWithReceipt(hash, s.db, sent) && ReportsBounce(sent, payload, decode)
    requires UniqueReceipt(s.db, sent.job.notification, sent.env.sentBy, sent.env.messageId)
    requires LookupOk(Step(hash, s, sent).db, sent.env.sentBy, sent.env.messageId, id)
    ensures var s1 := Step(hash, s, sent);
            var s2 := Step(hash, s1, Posted(sent.env.sentBy, payload, decode, NoFault, id, faults, commit));
            && id == sent.job.notification
            && (s2 == s1 || NoneTo(Run(hash, s2, later).calls, |s1.calls|, sent.job.tenant, EmailOf(s.db, sent.job)))
            && (faults == [] && commit == NoFault ==> s2 != s1)
  {
    SendRecordsReceipt(hash, s, sent);
    var s1 := Step(hash, s, sent);
    assert Carries(s1.db, id, sent.env.sentBy, sent.env.messageId);
    assert id == sent.job.notification by {
      if id != sent.job.notification {
        assert Carries(s.db, id, sent.env.sentBy, sent.env.messageId);
      }
    }
    var bounced := Says(sent.env.sentBy, payload, decode, "bounced", sent.env.messageId);
    var kind := if bounced then "bounced" else "complained";
    ReadsWhatItSays(sent.env.sentBy, payload, decode, kind, sent.env.messageId);
    CallbackRecords(hash, s1, sent.env.sentBy, payload, decode, kind, sent.env.messageId, id, faults, commit);
    BounceStopsMail(hash, s1, Posted(sent.env.sentBy, payload, decode, NoFault, id, faults, commit), later);
  }

  // ---- The worker and the webhook as they run ----

  class Mailroom {
    var db: Db
    var calls: seq<Call>
    var aborted: bool

    constructor (db: Db)
      ensures State() == System(db, [])
    {
      this.db, calls, aborted := db, [], false;
    }

    function State(): System
      reads this
    {
      System(db, calls)
    }

    // A statement's success; a failure, injected or by a constraint, aborts the rest of the transaction.
    method Execute(faults: seq<Fault>, statement: nat, allowed: bool) returns (ok: bool)
      modifies this`aborted
      ensures ok == (!old(aborted) && allowed && Succeeds(faults, statement)) && aborted == !ok
    {
      ok := !aborted && allowed && Succeeds(faults, statement);
      aborted := !ok;
    }

    method HandleJob(hash: Hash, job: Job, env: Env) returns (ending: Ending, made: nat, status: string)
      requires !aborted
      modifies this`aborted
      ensures Report(ending, aborted, made, status) == Pipeline(hash, db, job, env)
    {
      made, status := 0, "";
      var ok := Execute(env.faults, READ_EMAIL, true);
      var email := EmailOf(db, job);
      if !ok || email == "" { return Error, made, status; }
      ok := Execute(env.faults, READ_SUPPRESSION, true);
      if !ok { return Error, made, status; }
      if Suppressed(hash, db, job.tenant, email) {
        ok := Execute(env.faults, MARK_SUPPRESSED, true);
        if ok { status := "suppressed"; }
        return Done(0), made, status;
      }
      ok := Execute(env.faults, READ_TEMPLATE, true);
      if !ok || !env.renders { return Error, made, status; }
      ok := Execute(env.faults, LOAD_ROUTING, true);
      var sending := SendInOrder(if ok && env.routed != [] then env.routed else env.builtIn);
      made := Calls(sending);
      if sending.NoProvider? { return Panic, made, status; }
      if sending.Undelivered? { return Error, made, status; }
      ok := Execute(env.faults, MARK_SENT, true);
      if !ok { return Error, made, status; }
      ending, status := Done(0), "sent";
    }

    // A message as it comes off the queue. One that does not decode fails.
    method Handle(hash: Hash, message: Incoming<Job>, env: Env) returns (outcome: Outcome)
      modifies this
      ensures message.Garbled? ==> outcome == Failed && State() == old(State())
      ensures message.Decoded? ==> State() == Step(hash, old(State()), Deliver(message.value, env))
      ensures message.Decoded? ==> outcome == OutcomeOf(Attempt(hash, old(db), message.value, env).ending)
    {
      match message
      case Garbled => outcome := Failed;
      case Decoded(job) => outcome := RunJob(hash, job, env);
    }

    // One delivery: the pipeline in its transaction, then the reply to the bus.
    method RunJob(hash: Hash, job: Job, env: Env) returns (outcome: Outcome)
      modifies this
      ensures State() == Step(hash, old(State()), Deliver(job, env))
      ensures outcome == OutcomeOf(Attempt(hash, old(db), job, env).ending)
    {
      aborted := false;
      var ok := Execute(env.faults, BEGIN, true);
      if ok {
        ok := Execute(env.faults, SET_TENANT, true);
      }
      if !ok {
        return Failed;
      }
      var ending, made, status := HandleJob(hash, job, env);
      calls := calls + Repeat(Call(db, job), made);
      if !ending.Done? {
        return OutcomeOf(ending);
      }
      db := AfterAttempt(db, job, env, Report(ending, aborted, made, status));
      outcome := if aborted || env.commit != NoFault then Failed else OutcomeOf(ending);
    }

    // The webhook's background work: look the notification up, then its transaction.
    method ProcessEmailEvent(
      hash: Hash, provider: string, callback: Callback, lookup: Fault, id: string, faults: seq<Fault>, commit: Fault
    )
      requires ActedOn(callback) && LookupOk(db, provider, callback.messageId, id)
      modifies this
      ensures State() == Step(hash, old(State()), Event(provider, callback, lookup, id, faults, commit))
    {
      if lookup != NoFault || !Carries(db, id, provider, callback.messageId) {
        return;
      }
      RecordCallback(hash, id, callback.kind, provider, faults, commit);
    }

    // Statement errors are ignored, but abort the transaction.
    method RecordCallback(hash: Hash, id: string, kind: string, provider: string, faults: seq<Fault>, commit: Fault)
      requires id in db.notifications
      modifies this
      ensures db == Callbacked(hash, old(db), id, kind, provider, faults, commit) && calls == old(calls)
    {
      var before, n := db, db.notifications[id];
      aborted := false;
      var ok := Execute(faults, BEGIN, true);
      if ok {
        ok := Execute(faults, SET_TENANT, true);
      }
      if !ok {
        return;
      }
      var address := "";
      ok := Execute(faults, READ_EMAIL, true);
      if ok && n.subscriber in db.subscribers {
        address := db.subscribers[n.subscriber].email;
      }
      ok := Execute(faults, INSERT_EVENT, true);
      if ok {
        db := db.(events := db.events + [DeliveryEvent(n.tenant, id, kind, provider)]);
      }
      if IsBlock(kind) && address != "" {
        ok := Execute(faults, INSERT_SUPPRESSION, true);
        if ok {
          db := Insert(db, SuppressionKey(n.tenant, "email", hash(address)), ReasonFor(kind));
        }
      }
      var status := kind;
      if IsBlock(kind) {
        status := "failed";
      }
      ok := Execute(faults, UPDATE_STATUS, status in STATUSES);
      if ok {
        db := WithStatus(db, id, status);
      }
      if !Commits(aborted, commit) {
        db := before;
      }
    }

    // A callback as it arrives, answered with a status code; whatever it asks for happens in the background.
    method Webhook(
      hash: Hash, provider: string, body: Incoming<Payload>, decode: string -> Result<Payload>, lookup: Fault,
      id: string, faults: seq<Fault>, commit: Fault
    )
      returns (status: int)
      requires body.Decoded? ==> LookupOk(db, provider, Extract(provider, body.value, decode).messageId, id)
      modifies this
      ensures status == if body.Garbled? then 400 else 200
      ensures body.Garbled? ==> State() == old(State())
      ensures body.Decoded? ==>
                State() == Step(hash, old(State()), Posted(provider, body.value, decode, lookup, id, faults, commit))
    {
      if body.Garbled? {
        return 400;
      }
      var kind, messageId := ExtractEmailEvent(provider, body.value, decode);
      if kind != "" && messageId != "" {
        ProcessEmailEvent(hash, provider, Callback(kind, messageId), lookup, id, faults, commit);
      }
      status := 200;
    }
  }

  // The callback parser as it runs: named results, and the payload replaced by its unwrapped form.
  method ExtractEmailEvent(provider: string, payload: Payload, decode: string -> Result<Payload>)
    returns (kind: string, messageId: string)
    ensures Callback(kind, messageId) == Extract(provider, payload, decode)
  {
    kind, messageId := "", "";
    var p := payload;
    if provider == "ses" {
      var m := Field(Object(p), "Message");
      if m.Str? {
        var inner := decode(m.s);
        if inner.Ok? {
          p := inner.value;
        }
      }
      var notifType := TextOf(Field(Object(p), "notificationType"));
      if notifType == "Bounce" {
        kind := "bounced";
        var recipients := Field(Field(Object(p), "bounce"), "bouncedRecipients");
        if recipients.Array? && recipients.items != [] {
          messageId := TextOf(Field(recipients.items[0], "messageId"));
        }
      } else if notifType == "Complaint" {
        kind := "complained";
      } else if notifType == "Delivery" {
        kind := "delivered";
        messageId := TextOf(Field(Field(Object(p), "mail"), "messageId"));
      }
    } else if provider == "resend" {
      kind := ResendKind(TextOf(Field(Object(p), "type")));
      if kind != "" {
        messageId := TextOf(Field(Object(p), "email_id"));
      }
    }
  }
}
