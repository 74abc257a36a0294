// The opt-in matrix: the ranked query that reads it, and what an unsubscribe changes.
module Preferences {

  datatype Key = Key(tenant: string, subscriber: string, channel: string, category: string)
  datatype Row = Row(key: Key, optedIn: bool)

  // The table under its uniqueness constraint on the four key columns.
  type Matrix = map<Key, bool>

  const ALL := "all"

  // ---- The query ----

  predicate Matching(r: Row, q: Key) {
    && r.key.tenant == q.tenant && r.key.subscriber == q.subscriber
    && r.key.channel in {q.channel, ALL} && r.key.category in {q.category, ALL}
  }

  // The two sort keys, channel before category.
  function Rank(r: Row, q: Key): nat {
    (if r.key.channel == q.channel then 0 else 2) + (if r.key.category == q.category then 0 else 1)
  }

  function Filter(rows: seq<Row>, q: Key): (s: seq<Row>)
    ensures forall r :: r in s <==> r in rows && Matching(r, q)
  {
    if rows == [] then []
    else if Matching(rows[0], q) then [rows[0]] + Filter(rows[1..], q)
    else Filter(rows[1..], q)
  }

  // An answer the database may give: the matching rows, sorted by rank, ties in any order.
  ghost predicate QueryResult(rows: seq<Row>, q: Key, sorted: seq<Row>) {
    && multiset(sorted) == multiset(Filter(rows, q))
    && forall i, j :: 0 <= i < j < |sorted| ==> Rank(sorted[i], q) <= Rank(sorted[j], q)
  }

  // LIMIT 1, with no row meaning opted in.
  function FirstOrDefault(sorted: seq<Row>): bool {
    if sorted == [] then true else sorted[0].optedIn
  }

  ghost predicate UniqueKeys(rows: seq<Row>) {
    forall i, j :: 0 <= i < j < |rows| ==> rows[i].key != rows[j].key
  }

  ghost predicate Represents(rows: seq<Row>, m: Matrix) {
    && UniqueKeys(rows)
    && forall k, v :: Row(k, v) in rows <==> k in m && m[k] == v
  }

  // ---- The rule: the most specific row decides ----

  function OptedIn(m: Matrix, q: Key): bool {
    var channelOnly := q.(category := ALL);
    var categoryOnly := q.(channel := ALL);
    var neither := q.(channel := ALL, category := ALL);
    if q in m then m[q]
    else if channelOnly in m then m[channelOnly]
    else if categoryOnly in m then m[categoryOnly]
    else if neither in m then m[neither]
    else true
  }

  lemma InsortOrder(rows: seq<Row>, q: Key, sorted: seq<Row>, r: Row)
    requires QueryResult(rows, q, sorted) && r in rows && Matching(r, q)
    ensures sorted != [] && Rank(sorted[0], q) <= Rank(r, q)
    ensures sorted[0] in rows && Matching(sorted[0], q)
  {
    assert r in multiset(Filter(rows, q));
    assert r in sorted;
    assert sorted[0] in multiset(sorted);
    assert sorted[0] in Filter(rows, q);
  }

  // Filtering, sorting by the two keys and taking the first row is the most-specific-rule
  // lookup, whatever order the rows are stored in and however ties are broken.
  lemma QueryIsMostSpecific(rows: seq<Row>, m: Matrix, q: Key, sorted: seq<Row>)
    requires Represents(rows, m) && QueryResult(rows, q, sorted)
    ensures FirstOrDefault(sorted) == OptedIn(m, q)
  {
    var keys := [q, q.(category := ALL), q.(channel := ALL), q.(channel := ALL, category := ALL)];
    forall k | k in keys && k in m
      ensures sorted != [] && Rank(sorted[0], q) <= Rank(Row(k, m[k]), q)
    {
      InsortOrder(rows, q, sorted, Row(k, m[k]));
    }
    assert keys[0] in keys && keys[1] in keys && keys[2] in keys && keys[3] in keys;
    if sorted != [] {
      assert sorted[0] in multiset(sorted);
      assert sorted[0] in Filter(rows, q);
      assert Row(sorted[0].key, sorted[0].optedIn) in rows;
      assert sorted[0].key in keys;
    }
  }

  // ---- Unsubscribing ----

  function Unsubscribed(m: Matrix, tenant: string, subscriber: string, channel: string): Matrix {
    m[Key(tenant, subscriber, channel, ALL) := false]
  }

  // After unsubscribing from one channel, a lookup on that channel is still true exactly when a row
  // for that very category opts in; lookups on other channels are untouched.
  lemma ChannelUnsubscribe(m: Matrix, q: Key, channel: string)
    requires channel != ALL
    ensures var m' := Unsubscribed(m, q.tenant, q.subscriber, channel);
            if q.channel == channel then OptedIn(m', q) <==> (q.category != ALL && q in m && m[q])
            else OptedIn(m', q) == OptedIn(m, q)
  {
  }

  // After a global unsubscribe, a lookup is decided by the rows more specific than (all, all) if there
  // is one, and is false otherwise.
  lemma GlobalUnsubscribe(m: Matrix, q: Key)
    ensures var m' := Unsubscribed(m, q.tenant, q.subscriber, ALL);
            var everything := Key(q.tenant, q.subscriber, ALL, ALL);
            OptedIn(m', q) <==>
              (OptedIn(m - {everything}, q) && exists k :: k in m - {everything} && Matching(Row(k, m[k]), q))
  {
    var everything := Key(q.tenant, q.subscriber, ALL, ALL);
    var rest := m - {everything};
    var keys := [q, q.(category := ALL), q.(channel := ALL)];
    forall k | k in rest && Matching(Row(k, m[k]), q) ensures k in keys || k == everything {
      assert k == q || k == q.(category := ALL) || k == q.(channel := ALL) || k == everything;
      assert keys[0] in keys && keys[1] in keys && keys[2] in keys;
    }
    if k :| k in keys && k in rest {
      assert Matching(Row(k, m[k]), q);
    }
  }

  // So a global unsubscribe silences a subscriber on every channel and category exactly when no other
  // row of theirs opts in.
  lemma GlobalUnsubscribeSilences(m: Matrix, tenant: string, subscriber: string)
    ensures (forall channel, category ::
              !OptedIn(Unsubscribed(m, tenant, subscriber, ALL), Key(tenant, subscriber, channel, category)))
            <==>
            (forall k | k in m && k.tenant == tenant && k.subscriber == subscriber
                        && k != Key(tenant, subscriber, ALL, ALL) :: !m[k])
  {
    var m' := Unsubscribed(m, tenant, subscriber, ALL);
    if forall channel, category :: !OptedIn(m', Key(tenant, subscriber, channel, category)) {
      forall k | k in m && k.tenant == tenant && k.subscriber == subscriber && k != Key(tenant, subscriber, ALL, ALL)
        ensures !m[k]
      {
        assert k == Key(tenant, subscriber, k.channel, k.category);
        assert !OptedIn(m', Key(tenant, subscriber, k.channel, k.category));
      }
    }
  }
}
