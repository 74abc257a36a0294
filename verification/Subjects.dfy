// Subject names on the message bus and the stream patterns that capture them.
module Subjects {
  import opened Text

  const PREFIX := "qeet-notify"
  const EVENTS := "events"
  const CHANNEL := "channel"
  const DELIVERY := "delivery"
  const DLQ := "dlq"
  const DOT := '.'

  const CHANNELS: seq<string> := ["email", "sms", "whatsapp", "push", "inapp", "webhook"]

  function TenantSubject(tenant: string, kind: string): string {
    PREFIX + [DOT] + tenant + [DOT] + kind
  }

  function EventSubject(tenant: string): string {
    TenantSubject(tenant, EVENTS)
  }

  function ChannelSubject(tenant: string, channel: string): string {
    TenantSubject(tenant, CHANNEL + [DOT] + channel)
  }

  function DeliverySubject(tenant: string): string {
    TenantSubject(tenant, DELIVERY)
  }

  function DlqSubject(tenant: string): string {
    TenantSubject(tenant, DLQ)
  }

  // The tenant token of a subject, or "" when the subject has another shape.
  function TenantFromSubject(subject: string): string {
    var parts := SplitN(subject, DOT, 3);
    if |parts| >= 2 && parts[0] == PREFIX then parts[1] else ""
  }

  datatype Stream = Stream(name: string, pattern: string)

  // Each pattern is a subject with "*" in the tenant's place.
  const STREAMS: seq<Stream> := [
    Stream("NOTIFY_EVENTS", EventSubject("*")),
    Stream("NOTIFY_EMAIL", ChannelSubject("*", "email")),
    Stream("NOTIFY_SMS", ChannelSubject("*", "sms")),
    Stream("NOTIFY_WHATSAPP", ChannelSubject("*", "whatsapp")),
    Stream("NOTIFY_PUSH", ChannelSubject("*", "push")),
    Stream("NOTIFY_INAPP", ChannelSubject("*", "inapp")),
    Stream("NOTIFY_WEBHOOK", ChannelSubject("*", "webhook")),
    Stream("NOTIFY_DELIVERY", DeliverySubject("*")),
    Stream("NOTIFY_DLQ", DlqSubject("*"))
  ]

  // Subject matching on the bus: token by token, "*" standing for any one nonempty token.
  predicate TokensMatch(pattern: seq<string>, subject: seq<string>) {
    && |pattern| == |subject|
    && forall k :: 0 <= k < |pattern| ==>
         subject[k] == pattern[k] || (pattern[k] == "*" && subject[k] != "")
  }

  predicate Matches(pattern: string, subject: string) {
    TokensMatch(Split(pattern, DOT), Split(subject, DOT))
  }

  // The streams that store a message published on this subject.
  function StreamsOf(subject: string): set<int> {
    set k | 0 <= k < |STREAMS| && Matches(STREAMS[k].pattern, subject)
  }

  predicate DotFree(s: string) {
    DOT !in s
  }

  lemma TenantTokens(tenant: string, rest: string)
    requires DotFree(tenant)
    ensures Split(TenantSubject(tenant, rest), DOT) == [PREFIX, tenant] + Split(rest, DOT)
    ensures TenantFromSubject(TenantSubject(tenant, rest)) == tenant
  {
    SplitTwoHeads(PREFIX, tenant, rest, DOT);
  }

  lemma KindTokens(tenant: string, kind: string)
    requires DotFree(tenant) && DotFree(kind)
    ensures Split(TenantSubject(tenant, kind), DOT) == [PREFIX, tenant, kind]
  {
    TenantTokens(tenant, kind);
    SplitHead(kind, "", DOT);
  }

  lemma ChannelTokens(tenant: string, channel: string)
    requires DotFree(tenant) && DotFree(channel)
    ensures Split(ChannelSubject(tenant, channel), DOT) == [PREFIX, tenant, CHANNEL, channel]
  {
    TenantTokens(tenant, CHANNEL + [DOT] + channel);
    SplitHead(CHANNEL, channel, DOT);
    SplitHead(channel, "", DOT);
  }

  // The subject is the prefix and the tenant, with or without more after it.
  ghost predicate BelongsTo(subject: string, tenant: string) {
    || subject == "qeet-notify" + ['.'] + tenant
    || exists rest: string :: subject == "qeet-notify" + ['.'] + tenant + ['.'] + rest
  }

  lemma TailNames(tail: string, j: nat)
    requires j <= |tail| && (j < |tail| ==> tail[j] == DOT)
    ensures BelongsTo(PREFIX + [DOT] + tail, tail[..j])
  {
    var tenant := tail[..j];
    if j < |tail| {
      var rest := tail[j + 1..];
      assert PREFIX + [DOT] + tail == PREFIX + [DOT] + tenant + [DOT] + rest;
    } else {
      assert tail == tenant;
    }
  }

  lemma {:induction false} ReadsTenant(subject: string)
    requires TenantFromSubject(subject) != ""
    ensures DotFree(TenantFromSubject(subject)) && BelongsTo(subject, TenantFromSubject(subject))
  {
    var k := FirstChar(subject, DOT);
    var tail := subject[k + 1..];
    var j := FirstChar(tail, DOT);
    var tenant := tail[..j];
    assert SplitN(tail, DOT, 2)[0] == tenant;
    assert subject == PREFIX + [DOT] + tail;
    TailNames(tail, j);
  }

  lemma NamedIsRead(subject: string, tenant: string)
    requires DotFree(tenant) && BelongsTo(subject, tenant)
    ensures TenantFromSubject(subject) == tenant
  {
    if rest: string :| subject == "qeet-notify" + ['.'] + tenant + ['.'] + rest {
      SplitTwoHeads(PREFIX, tenant, rest, DOT);
    } else {
      SplitNHead(PREFIX, tenant, DOT, 3);
      FirstCharAfter(tenant, "", DOT);
      assert subject == PREFIX + [DOT] + tenant;
    }
  }

  // A subject is read as a tenant's exactly when it is the prefix and that tenant, and perhaps more.
  lemma {:induction false} TenantReadExactly(subject: string, tenant: string)
    requires tenant != ""
    ensures TenantFromSubject(subject) == tenant <==> DotFree(tenant) && BelongsTo(subject, tenant)
  {
    if TenantFromSubject(subject) == tenant {
      ReadsTenant(subject);
    }
    if DotFree(tenant) && BelongsTo(subject, tenant) {
      NamedIsRead(subject, tenant);
    }
  }

  // Every subject the service builds names its tenant, so a dead letter goes back to that tenant.
  lemma SubjectNamesTenant(tenant: string, channel: string)
    requires DotFree(tenant)
    ensures TenantFromSubject(EventSubject(tenant)) == tenant
    ensures TenantFromSubject(ChannelSubject(tenant, channel)) == tenant
    ensures TenantFromSubject(DeliverySubject(tenant)) == tenant
    ensures TenantFromSubject(DlqSubject(tenant)) == tenant
  {
    TenantTokens(tenant, EVENTS);
    TenantTokens(tenant, CHANNEL + [DOT] + channel);
    TenantTokens(tenant, DELIVERY);
    TenantTokens(tenant, DLQ);
  }

  // The token that tells streams apart: the kind of a tenant subject, or the channel.
  function StreamTokens(k: int): seq<string>
    requires 0 <= k < |STREAMS|
  {
    if k == 0 then [PREFIX, "*", EVENTS]
    else if k == 7 then [PREFIX, "*", DELIVERY]
    else if k == 8 then [PREFIX, "*", DLQ]
    else [PREFIX, "*", CHANNEL, CHANNELS[k - 1]]
  }

  function PatternOf(k: int): string
    requires 0 <= k < |STREAMS|
  {
    if k == 0 then EventSubject("*")
    else if k == 7 then DeliverySubject("*")
    else if k == 8 then DlqSubject("*")
    else ChannelSubject("*", CHANNELS[k - 1])
  }

  lemma PatternIs(k: int)
    requires 0 <= k < |STREAMS|
    ensures STREAMS[k].pattern == PatternOf(k)
  {
    if 1 <= k <= 6 {
      assert STREAMS[k].pattern == ChannelSubject("*", CHANNELS[k - 1]);
    }
  }

  lemma ChannelDotFree(k: int)
    requires 0 <= k < |CHANNELS|
    ensures DotFree(CHANNELS[k])
  {
  }

  lemma PatternTokens(k: int)
    requires 0 <= k < |STREAMS|
    ensures Split(PatternOf(k), DOT) == StreamTokens(k)
  {
    if k == 0 {
      KindTokens("*", EVENTS);
    } else if k == 7 {
      KindTokens("*", DELIVERY);
    } else if k == 8 {
      KindTokens("*", DLQ);
    } else {
      ChannelDotFree(k - 1);
      ChannelTokens("*", CHANNELS[k - 1]);
    }
  }

  lemma FourTokensMatch(tenant: string, channel: string, own: string)
    requires tenant != "" && own != "*"
    ensures TokensMatch([PREFIX, "*", CHANNEL, own], [PREFIX, tenant, CHANNEL, channel]) <==> own == channel
  {
    var pattern, subject := [PREFIX, "*", CHANNEL, own], [PREFIX, tenant, CHANNEL, channel];
    if TokensMatch(pattern, subject) {
      assert subject[3] == pattern[3];
    }
  }

  lemma ThreeTokensMatch(tenant: string, kind: string, own: string)
    requires tenant != "" && own != "*"
    ensures TokensMatch([PREFIX, "*", own], [PREFIX, tenant, kind]) <==> own == kind
  {
    var pattern, subject := [PREFIX, "*", own], [PREFIX, tenant, kind];
    if TokensMatch(pattern, subject) {
      assert subject[2] == pattern[2];
    }
  }

  lemma {:induction false} ChannelPattern(tenant: string, channel: string, k: int)
    requires DotFree(tenant) && tenant != "" && DotFree(channel) && 0 <= k < |STREAMS|
    ensures Matches(STREAMS[k].pattern, ChannelSubject(tenant, channel)) <==> 1 <= k <= 6 && CHANNELS[k - 1] == channel
  {
    ChannelTokens(tenant, channel);
    PatternIs(k);
    PatternTokens(k);
    if 1 <= k <= 6 {
      FourTokensMatch(tenant, channel, CHANNELS[k - 1]);
    }
  }

  lemma KindPattern(tenant: string, kind: string, k: int)
    requires DotFree(tenant) && tenant != "" && DotFree(kind) && 0 <= k < |STREAMS|
    ensures Matches(STREAMS[k].pattern, TenantSubject(tenant, kind)) <==>
            (k == 0 && kind == EVENTS) || (k == 7 && kind == DELIVERY) || (k == 8 && kind == DLQ)
  {
    KindTokens(tenant, kind);
    PatternIs(k);
    PatternTokens(k);
    if k in {0, 7, 8} {
      ThreeTokensMatch(tenant, kind, StreamTokens(k)[2]);
    }
  }

  // A channel job is stored by exactly the stream of its channel; a job for any other
  // dot-free channel name is stored nowhere.
  lemma ChannelStream(tenant: string, channel: string)
    requires DotFree(tenant) && tenant != "" && DotFree(channel)
    ensures forall k :: k in StreamsOf(ChannelSubject(tenant, channel)) <==>
                        0 <= k - 1 < |CHANNELS| && CHANNELS[k - 1] == channel
    ensures |StreamsOf(ChannelSubject(tenant, channel))| == if channel in CHANNELS then 1 else 0
  {
    forall k | 0 <= k < |STREAMS|
      ensures Matches(STREAMS[k].pattern, ChannelSubject(tenant, channel)) <==>
              1 <= k <= 6 && CHANNELS[k - 1] == channel
    {
      ChannelPattern(tenant, channel, k);
    }
    var streams := StreamsOf(ChannelSubject(tenant, channel));
    if channel in CHANNELS {
      var j :| 0 <= j < |CHANNELS| && CHANNELS[j] == channel;
      DistinctChannels();
      assert streams == {j + 1};
    } else {
      assert streams == {};
    }
  }

  lemma DistinctChannels()
    ensures forall i, j :: 0 <= i < |CHANNELS| && 0 <= j < |CHANNELS| && CHANNELS[i] == CHANNELS[j] ==> i == j
  {
    assert CHANNELS[0][0] == 'e' && CHANNELS[4][0] == 'i';
  }

  lemma KindStream(tenant: string, kind: string, own: int)
    requires DotFree(tenant) && tenant != ""
    requires (own == 0 && kind == EVENTS) || (own == 7 && kind == DELIVERY) || (own == 8 && kind == DLQ)
    ensures StreamsOf(TenantSubject(tenant, kind)) == {own}
  {
    forall k | 0 <= k < |STREAMS| ensures Matches(STREAMS[k].pattern, TenantSubject(tenant, kind)) <==> k == own {
      KindPattern(tenant, kind, k);
    }
  }

  // The tenant-level subjects are each stored by exactly one stream as well.
  lemma {:induction false} TenantStreams(tenant: string)
    requires DotFree(tenant) && tenant != ""
    ensures StreamsOf(EventSubject(tenant)) == {0}
    ensures StreamsOf(DeliverySubject(tenant)) == {7}
    ensures StreamsOf(DlqSubject(tenant)) == {8}
  {
    KindStream(tenant, EVENTS, 0);
    KindStream(tenant, DELIVERY, 7);
    KindStream(tenant, DLQ, 8);
  }

  // How subjects are spelled, and which channels and streams there are.
  lemma {:induction false} SubjectsSpelled(tenant: string, channel: string)
    ensures EventSubject(tenant) == "qeet-notify." + tenant + ".events"
    ensures ChannelSubject(tenant, channel) == "qeet-notify." + tenant + ".channel." + channel
    ensures DeliverySubject(tenant) == "qeet-notify." + tenant + ".delivery"
    ensures DlqSubject(tenant) == "qeet-notify." + tenant + ".dlq"
    ensures CHANNELS == ["email", "sms", "whatsapp", "push", "inapp", "webhook"]
    ensures |STREAMS| == 9
  {
    assert PREFIX + [DOT] == "qeet-notify.";
    Regroup("qeet-notify." + tenant, [DOT], EVENTS);
    Regroup("qeet-notify." + tenant, [DOT], DELIVERY);
    Regroup("qeet-notify." + tenant, [DOT], DLQ);
    Regroup("qeet-notify." + tenant, [DOT], CHANNEL + [DOT] + channel);
    assert [DOT] + EVENTS == ".events" && [DOT] + DELIVERY == ".delivery" && [DOT] + DLQ == ".dlq";
    Regroup([DOT], CHANNEL + [DOT], channel);
    assert [DOT] + (CHANNEL + [DOT]) == ".channel.";
    Regroup("qeet-notify." + tenant, ".channel.", channel);
  }
}
