// The two writers of the opt-in matrix and of the append-only consent ledger beside it.
module ConsentLedger {
  import opened Faults
  import opened Preferences
  import Subjects

  datatype Entry = Entry(
    key: Key,
    optedIn: bool,
    source: string,
    actor: string,
    ip: string
  )

  datatype Item = Item(channel: string, category: string, optedIn: bool)

  datatype Store = Store(matrix: Matrix, ledger: seq<Entry>)

  type Tx = Transaction<Store>

  const EMPTY := Store(map[], [])

  // ---- What the ledger says the matrix should be ----

  function Replay(ledger: seq<Entry>): Matrix {
    if ledger == [] then map[]
    else
      var last := ledger[|ledger| - 1];
      Replay(ledger[..|ledger| - 1])[last.key := last.optedIn]
  }

  ghost predicate LastAt(ledger: seq<Entry>, k: Key, i: int) {
    0 <= i < |ledger| && ledger[i].key == k && forall j :: i < j < |ledger| ==> ledger[j].key != k
  }

  // The last entry for k opts in just as v says.
  ghost predicate LastSays(ledger: seq<Entry>, k: Key, v: bool) {
    exists i :: LastAt(ledger, k, i) && ledger[i].optedIn == v
  }

  ghost predicate Mentions(ledger: seq<Entry>, k: Key) {
    exists i :: 0 <= i < |ledger| && ledger[i].key == k
  }

  lemma {:induction false} ReplayLast(ledger: seq<Entry>, k: Key) returns (i: int)
    ensures k !in Replay(ledger) ==> !Mentions(ledger, k)
    ensures k in Replay(ledger) ==> LastAt(ledger, k, i) && ledger[i].optedIn == Replay(ledger)[k]
  {
    i := |ledger| - 1;
    if ledger != [] && ledger[i].key != k {
      var front := ledger[..i];
      var last := i;
      i := ReplayLast(front, k);
      if k in Replay(front) {
        forall j | i < j < |ledger| ensures ledger[j].key != k {
          assert j < last ==> front[j] == ledger[j];
        }
      } else {
        forall j | 0 <= j < |ledger| ensures ledger[j].key != k {
          assert j < last ==> front[j] == ledger[j];
        }
      }
    }
  }

  // A key is present in the replayed matrix iff the ledger mentions it, with its last entry's value.
  lemma ReplayIsLastEntry(ledger: seq<Entry>, k: Key)
    ensures k in Replay(ledger) <==> Mentions(ledger, k)
    ensures forall v :: k in Replay(ledger) && Replay(ledger)[k] == v <==> LastSays(ledger, k, v)
  {
    var i := ReplayLast(ledger, k);
    if k in Replay(ledger) {
      forall j | LastAt(ledger, k, j) ensures j == i {
        assert ledger[i].key == k && ledger[j].key == k;
      }
    }
  }

  ghost predicate Agreement(s: Store) {
    s.matrix == Replay(s.ledger)
  }

  // ---- Statements ----

  // The matrix's check constraint on channels.
  predicate AllowedChannel(channel: string) {
    channel in Subjects.CHANNELS || channel == ALL
  }

  function Upsert(tx: Tx, faults: seq<Fault>, k: Key, v: bool): Tx {
    var tx' := Statement(tx, faults, AllowedChannel(k.channel));
    if tx'.aborted then tx' else tx'.(store := tx'.store.(matrix := tx'.store.matrix[k := v]))
  }

  function Record(tx: Tx, faults: seq<Fault>, e: Entry): Tx {
    var e' := e.(key := e.key.(category := if e.key.category == "" then ALL else e.key.category),
                 source := if e.source == "" then "api" else e.source);
    var tx' := Statement(tx, faults, true);
    if tx'.aborted then tx' else tx'.(store := tx'.store.(ledger := tx'.store.ledger + [e']))
  }

  // Begin and the set_config that scopes the transaction to its tenant.
  function Begin(s: Store, faults: seq<Fault>): Tx {
    Statement(Statement(Transaction(s, false, 0), faults, true), faults, true)
  }

  function Settle(before: Store, tx: Tx, commit: Fault): Store {
    if Commits(tx.aborted, commit) then tx.store else before
  }

  // ---- UpdatePreferences ----

  function KeyOf(tenant: string, subscriber: string, item: Item): Key {
    Key(tenant, subscriber, item.channel, if item.category == "" then ALL else item.category)
  }

  function EntryOf(tenant: string, subscriber: string, item: Item, actor: string, ip: string): Entry {
    Entry(KeyOf(tenant, subscriber, item), item.optedIn, "api", actor, ip)
  }

  // The loop over the request's items: false when an upsert failed, which ends it with a 500.
  function ApplyItems(tx: Tx, faults: seq<Fault>, entries: seq<Entry>): (bool, Tx)
    decreases entries
  {
    if entries == [] then (true, tx)
    else
      var e := entries[0];
      var tx1 := Upsert(tx, faults, e.key, e.optedIn);
      if tx1.aborted then (false, tx1)
      else ApplyItems(Record(tx1, faults, e), faults, entries[1..])
  }

  // One ledger entry per item that names a channel; items without one are skipped.
  function Entries(tenant: string, subscriber: string, items: seq<Item>, actor: string, ip: string): seq<Entry> {
    if items == [] then []
    else if items[0].channel == "" then Entries(tenant, subscriber, items[1..], actor, ip)
    else [EntryOf(tenant, subscriber, items[0], actor, ip)] + Entries(tenant, subscriber, items[1..], actor, ip)
  }

  datatype Status = Ok200 | Bad400 | Internal500

  datatype Request =
    | Update(tenant: string, subscriber: string, wellFormed: bool, items: seq<Item>, actor: string, ip: string)
    | Unsubscribe(tenant: string, subscriber: string, channel: string, ip: string)

  function ChannelOf(channel: string): string {
    if channel == "" then ALL else channel
  }

  function UnsubscribeEntry(r: Request): Entry
    requires r.Unsubscribe?
  {
    Entry(Key(r.tenant, r.subscriber, ChannelOf(r.channel), ALL), false, "unsubscribe_link", "subscriber", r.ip)
  }

  // The ledger entries a request stands for.
  function Intent(r: Request): seq<Entry> {
    match r
    case Update(t, s, wellFormed, items, actor, ip) => if wellFormed then Entries(t, s, items, actor, ip) else []
    case Unsubscribe(t, s, _, _) => if t == "" || s == "" then [] else [UnsubscribeEntry(r)]
  }

  // Response and new tables. The response is written before the surrounding transaction commits an
  // update; an unsubscribe answers after its own commit.
  function Serve(s: Store, r: Request, faults: seq<Fault>, commit: Fault): (Status, Store) {
    var tx := Begin(s, faults);
    match r
    case Update(t, sub, wellFormed, items, actor, ip) =>
      if tx.aborted then (Internal500, s)
      else if !wellFormed then (Bad400, s)
      else
        var (ok, tx') := ApplyItems(tx, faults, Intent(r));
        if ok then (Ok200, Settle(s, tx', commit)) else (Internal500, s)
    case Unsubscribe(t, sub, _, _) =>
      if t == "" || sub == "" then (Bad400, s)
      else if tx.aborted then (Internal500, s)
      else
        var e := UnsubscribeEntry(r);
        var tx1 := Upsert(tx, faults, e.key, false);
        if tx1.aborted then (Internal500, s)
        else
          var tx2 := Record(tx1, faults, e);
          (if Commits(tx2.aborted, commit) && commit == NoFault then Ok200 else Internal500, Settle(s, tx2, commit))
  }

  // ---- All or nothing ----

  function Appended(s: Store, entries: seq<Entry>): Store
    decreases entries
  {
    if entries == [] then s
    else
      Appended(Store(s.matrix[entries[0].key := entries[0].optedIn], s.ledger + [entries[0]]), entries[1..])
  }

  ghost predicate Normal(entries: seq<Entry>) {
    forall e :: e in entries ==> e.key.category != "" && e.source != ""
  }

  lemma {:induction false} EntriesNormal(
    tenant: string, subscriber: string, items: seq<Item>, actor: string, ip: string
  )
    ensures Normal(Entries(tenant, subscriber, items, actor, ip))
  {
    if items != [] {
      EntriesNormal(tenant, subscriber, items[1..], actor, ip);
    }
  }

  // Fallible operations lo .. hi-1 all succeed.
  ghost predicate Clear(faults: seq<Fault>, lo: nat, hi: nat) {
    forall k :: lo <= k < hi ==> Succeeds(faults, k)
  }

  ghost predicate AllAllowed(entries: seq<Entry>) {
    forall e :: e in entries ==> AllowedChannel(e.key.channel)
  }

  // Each entry costs two statements; the handler reports success when every one but the very last
  // ledger append went through, since it ignores that append's error.
  lemma {:induction false} ApplyItemsExact(tx: Tx, faults: seq<Fault>, entries: seq<Entry>)
    requires !tx.aborted && Normal(entries)
    ensures var (ok, tx') := ApplyItems(tx, faults, entries);
            && (ok <==> AllAllowed(entries) && (entries == [] || Clear(faults, tx.used, tx.used + 2 * |entries| - 1)))
            && (ok && !tx'.aborted <==> AllAllowed(entries) && Clear(faults, tx.used, tx.used + 2 * |entries|))
            && (ok && !tx'.aborted ==> tx'.store == Appended(tx.store, entries))
    decreases entries
  {
    if entries != [] {
      var e := entries[0];
      var tx1 := Upsert(tx, faults, e.key, e.optedIn);
      if !tx1.aborted {
        var tx2 := Record(tx1, faults, e);
        assert Succeeds(faults, tx.used);
        if tx2.aborted {
          assert !Succeeds(faults, tx.used + 1);
          if |entries| > 1 {
            assert !ApplyItems(tx2, faults, entries[1..]).0;
          }
        } else {
          assert Succeeds(faults, tx.used + 1);
          ApplyItemsExact(tx2, faults, entries[1..]);
          assert forall x :: x in entries <==> x == e || x in entries[1..];
          assert forall lo, hi :: lo == tx.used && hi >= lo + 2 ==>
            (Clear(faults, lo, hi) <==> Clear(faults, lo + 2, hi));
        }
      }
    }
  }

  // Whether the request's transaction goes through in full.
  ghost predicate GoesThrough(r: Request, faults: seq<Fault>, commit: Fault) {
    && AllAllowed(Intent(r)) && Clear(faults, 0, 2 + 2 * |Intent(r)|) && commit != Rejected
  }

  // Every request is all-or-nothing: its entries reach the matrix and the ledger together, in order,
  // exactly when every statement and the commit succeed; otherwise neither table changes.
  lemma AllOrNothing(s: Store, r: Request, faults: seq<Fault>, commit: Fault)
    ensures Serve(s, r, faults, commit).1 ==
            if GoesThrough(r, faults, commit) then Appended(s, Intent(r)) else s
  {
    var tx := Begin(s, faults);
    var entries := Intent(r);
    assert !tx.aborted <==> Clear(faults, 0, 2) by {
      assert Succeeds(faults, 0) && Succeeds(faults, 1) ==> Clear(faults, 0, 2);
    }
    if entries != [] && !tx.aborted {
      if r.Update? {
        EntriesNormal(r.tenant, r.subscriber, r.items, r.actor, r.ip);
        ApplyItemsExact(tx, faults, entries);
      } else {
        ApplyItemsExact(tx, faults, entries);
        assert entries[1..] == [];
      }
      assert Clear(faults, 0, 2 + 2 * |entries|) <==> Clear(faults, 2, 2 + 2 * |entries|);
    }
  }

  // An update is answered "updated" although nothing was stored exactly when its last ledger append
  // or the commit is what failed.
  lemma AcceptedButLost(s: Store, r: Request, faults: seq<Fault>, commit: Fault)
    requires r.Update? && r.wellFormed && Intent(r) != []
    ensures var n := |Intent(r)|;
            Serve(s, r, faults, commit).0 == Ok200 && !GoesThrough(r, faults, commit) <==>
              && AllAllowed(Intent(r)) && Clear(faults, 0, 2 * n + 1)
              && (!Succeeds(faults, 2 * n + 1) || commit == Rejected)
  {
    var tx := Begin(s, faults);
    var n := |Intent(r)|;
    assert !tx.aborted <==> Clear(faults, 0, 2) by {
      assert Succeeds(faults, 0) && Succeeds(faults, 1) ==> Clear(faults, 0, 2);
    }
    EntriesNormal(r.tenant, r.subscriber, r.items, r.actor, r.ip);
    if !tx.aborted {
      ApplyItemsExact(tx, faults, Intent(r));
    }
    assert Clear(faults, 0, 2 * n + 1) <==> Clear(faults, 0, 2) && Clear(faults, 2, 2 * n + 1);
    assert Clear(faults, 0, 2 * n + 2) <==> Clear(faults, 0, 2 * n + 1) && Succeeds(faults, 2 * n + 1);
  }

  // ---- What a request means, in its own terms ----

  // The item sets this preference; an empty category stands for all of them.
  predicate Sets(tenant: string, subscriber: string, item: Item, k: Key) {
    && k.tenant == tenant && k.subscriber == subscriber
    && item.channel != "" && k.channel == item.channel
    && k.category == (if item.category == "" then "all" else item.category)
  }

  ghost predicate LastToSet(tenant: string, subscriber: string, items: seq<Item>, k: Key, i: nat) {
    && i < |items| && Sets(tenant, subscriber, items[i], k)
    && forall j :: i < j < |items| ==> !Sets(tenant, subscriber, items[j], k)
  }

  ghost predicate NoneSets(tenant: string, subscriber: string, items: seq<Item>, k: Key) {
    forall i :: 0 <= i < |items| ==> !Sets(tenant, subscriber, items[i], k)
  }

  predicate SameAt(a: Matrix, b: Matrix, k: Key) {
    if k in a then k in b && b[k] == a[k] else k !in b
  }

  // The last item to set a preference decides it; a preference that no item sets stays as it was.
  ghost predicate DecidedBy(
    before: Matrix, after: Matrix, tenant: string, subscriber: string, items: seq<Item>, k: Key
  ) {
    && (forall i: nat :: LastToSet(tenant, subscriber, items, k, i) ==> k in after && after[k] == items[i].optedIn)
    && (NoneSets(tenant, subscriber, items, k) ==> SameAt(before, after, k))
  }

  lemma LastInRest(tenant: string, subscriber: string, items: seq<Item>, k: Key, i: nat)
    requires 0 < i && LastToSet(tenant, subscriber, items, k, i)
    ensures LastToSet(tenant, subscriber, items[1..], k, i - 1)
  {
    assert forall j :: i - 1 < j < |items| - 1 ==> items[1..][j] == items[j + 1];
  }

  lemma NoneInRest(tenant: string, subscriber: string, items: seq<Item>, k: Key)
    requires items != [] && (LastToSet(tenant, subscriber, items, k, 0) || NoneSets(tenant, subscriber, items, k))
    ensures NoneSets(tenant, subscriber, items[1..], k)
  {
    assert forall j :: 0 <= j < |items| - 1 ==> items[1..][j] == items[j + 1];
  }

  lemma DecidedByHead(
    before: Matrix, middle: Matrix, after: Matrix, tenant: string, subscriber: string, items: seq<Item>, k: Key
  )
    requires items != [] && DecidedBy(middle, after, tenant, subscriber, items[1..], k)
    requires if Sets(tenant, subscriber, items[0], k) then k in middle && middle[k] == items[0].optedIn
             else SameAt(before, middle, k)
    ensures DecidedBy(before, after, tenant, subscriber, items, k)
  {
    forall i: nat | LastToSet(tenant, subscriber, items, k, i) ensures k in after && after[k] == items[i].optedIn {
      if i > 0 {
        LastInRest(tenant, subscriber, items, k, i);
        assert items[1..][i - 1] == items[i];
      } else {
        NoneInRest(tenant, subscriber, items, k);
      }
    }
    if NoneSets(tenant, subscriber, items, k) {
      NoneInRest(tenant, subscriber, items, k);
    }
  }

  lemma {:induction false} UpdateDecides(
    s: Store, tenant: string, subscriber: string, items: seq<Item>, actor: string, ip: string, k: Key
  )
    ensures DecidedBy(s.matrix, Appended(s, Entries(tenant, subscriber, items, actor, ip)).matrix,
                      tenant, subscriber, items, k)
    decreases |items|
  {
    if items != [] {
      var e := EntryOf(tenant, subscriber, items[0], actor, ip);
      var rest := Entries(tenant, subscriber, items[1..], actor, ip);
      var s1 := if items[0].channel == "" then s else Store(s.matrix[e.key := e.optedIn], s.ledger + [e]);
      assert ([e] + rest)[1..] == rest;
      UpdateDecides(s1, tenant, subscriber, items[1..], actor, ip, k);
      DecidedByHead(s.matrix, s1.matrix, Appended(s1, rest).matrix, tenant, subscriber, items, k);
    }
  }

  // How many of the first n items name a channel.
  function Naming(items: seq<Item>, n: nat): nat
    requires n <= |items|
  {
    if n == 0 then 0 else Naming(items, n - 1) + if items[n - 1].channel != "" then 1 else 0
  }

  lemma {:induction false} NamingFirst(items: seq<Item>, n: nat)
    requires 0 < n <= |items|
    ensures Naming(items, n) == (if items[0].channel != "" then 1 else 0) + Naming(items[1..], n - 1)
  {
    if n > 1 {
      NamingFirst(items, n - 1);
    }
  }

  // The row the item is recorded by.
  function RowFor(tenant: string, subscriber: string, item: Item, actor: string, ip: string): Entry {
    Entry(Key(tenant, subscriber, item.channel, if item.category == "" then "all" else item.category),
          item.optedIn, "api", actor, ip)
  }

  ghost predicate RowAt(
    rows: seq<Entry>, tenant: string, subscriber: string, items: seq<Item>, actor: string, ip: string, i: nat
  )
    requires i < |items|
  {
    && Naming(items, i) < |rows|
    && rows[Naming(items, i)] == RowFor(tenant, subscriber, items[i], actor, ip)
  }

  // One row for each item that names a channel, in order, and no other.
  ghost predicate RowsFor(
    rows: seq<Entry>, tenant: string, subscriber: string, items: seq<Item>, actor: string, ip: string
  ) {
    && |rows| == Naming(items, |items|)
    && forall i | 0 <= i < |items| && items[i].channel != "" :: RowAt(rows, tenant, subscriber, items, actor, ip, i)
  }

  lemma RowLater(
    rows: seq<Entry>, rest: seq<Entry>, tenant: string, subscriber: string, items: seq<Item>, actor: string, ip: string,
    i: nat
  )
    requires 0 < i < |items| && RowAt(rest, tenant, subscriber, items[1..], actor, ip, i - 1)
    requires |rows| == |rest| + (if items[0].channel != "" then 1 else 0) && rows[|rows| - |rest|..] == rest
    ensures RowAt(rows, tenant, subscriber, items, actor, ip, i)
  {
    NamingFirst(items, i);
    var k := Naming(items[1..], i - 1);
    assert rows[|rows| - |rest|..][k] == rows[|rows| - |rest| + k];
  }

  lemma RowFirst(rows: seq<Entry>, tenant: string, subscriber: string, items: seq<Item>, actor: string, ip: string)
    requires items != [] && rows != [] && rows[0] == RowFor(tenant, subscriber, items[0], actor, ip)
    ensures RowAt(rows, tenant, subscriber, items, actor, ip, 0)
  {
  }

  lemma AllNamed(items: seq<Item>)
    requires items != []
    ensures Naming(items, |items|) == (if items[0].channel != "" then 1 else 0) + Naming(items[1..], |items[1..]|)
  {
    NamingFirst(items, |items|);
  }

  // How the rows of the items begin: with the first item's row, if it names a channel.
  ghost predicate Begins(
    rows: seq<Entry>, rest: seq<Entry>, tenant: string, subscriber: string, item: Item, actor: string, ip: string
  ) {
    && |rows| == |rest| + (if item.channel != "" then 1 else 0) && rows[|rows| - |rest|..] == rest
    && (item.channel != "" ==> rows[0] == RowFor(tenant, subscriber, item, actor, ip))
  }

  lemma RowOne(
    rows: seq<Entry>, rest: seq<Entry>, tenant: string, subscriber: string, items: seq<Item>, actor: string, ip: string,
    i: nat
  )
    requires i < |items| && items[i].channel != ""
    requires RowsFor(rest, tenant, subscriber, items[1..], actor, ip)
    requires Begins(rows, rest, tenant, subscriber, items[0], actor, ip)
    ensures RowAt(rows, tenant, subscriber, items, actor, ip, i)
  {
    if i == 0 {
      RowFirst(rows, tenant, subscriber, items, actor, ip);
    } else {
      assert items[1..][i - 1] == items[i];
      RowLater(rows, rest, tenant, subscriber, items, actor, ip, i);
    }
  }

  lemma RowsHead(
    rows: seq<Entry>, rest: seq<Entry>, tenant: string, subscriber: string, items: seq<Item>, actor: string, ip: string
  )
    requires items != [] && RowsFor(rest, tenant, subscriber, items[1..], actor, ip)
    requires Begins(rows, rest, tenant, subscriber, items[0], actor, ip)
    ensures RowsFor(rows, tenant, subscriber, items, actor, ip)
  {
    AllNamed(items);
    forall i | 0 <= i < |items| && items[i].channel != "" ensures RowAt(rows, tenant, subscriber, items, actor, ip, i) {
      RowOne(rows, rest, tenant, subscriber, items, actor, ip, i);
    }
  }

  lemma {:induction false} EntriesAreRows(
    tenant: string, subscriber: string, items: seq<Item>, actor: string, ip: string
  )
    ensures RowsFor(Entries(tenant, subscriber, items, actor, ip), tenant, subscriber, items, actor, ip)
  {
    if items != [] {
      EntriesAreRows(tenant, subscriber, items[1..], actor, ip);
      RowsHead(Entries(tenant, subscriber, items, actor, ip), Entries(tenant, subscriber, items[1..], actor, ip),
               tenant, subscriber, items, actor, ip);
    }
  }

  lemma {:induction false} AppendedLedger(s: Store, entries: seq<Entry>)
    ensures Appended(s, entries).ledger == s.ledger + entries
    decreases entries
  {
    if entries != [] {
      AppendedLedger(Store(s.matrix[entries[0].key := entries[0].optedIn], s.ledger + [entries[0]]), entries[1..]);
      assert entries == [entries[0]] + entries[1..];
    }
  }

  // The update has been stored as its items say.
  ghost predicate Updated(s: Store, t: Store, r: Request)
    requires r.Update?
  {
    && (forall k: Key :: DecidedBy(s.matrix, t.matrix, r.tenant, r.subscriber, r.items, k))
    && |s.ledger| <= |t.ledger| && t.ledger[..|s.ledger|] == s.ledger
    && RowsFor(t.ledger[|s.ledger|..], r.tenant, r.subscriber, r.items, r.actor, r.ip)
  }

  // The database accepts every channel the items name.
  ghost predicate ItemsAllowed(items: seq<Item>) {
    forall i | 0 <= i < |items| && items[i].channel != "" ::
      items[i].channel in {"email", "sms", "whatsapp", "push", "inapp", "webhook", "all"}
  }

  lemma ChannelsAllowed(channel: string)
    ensures AllowedChannel(channel) <==>
            channel in {"email", "sms", "whatsapp", "push", "inapp", "webhook", "all"}
  {
    assert Subjects.CHANNELS == ["email", "sms", "whatsapp", "push", "inapp", "webhook"];
    assert forall k :: 0 <= k < 6 ==> Subjects.CHANNELS[k] in Subjects.CHANNELS;
  }

  lemma ItemsAllowedOneByOne(items: seq<Item>)
    requires items != []
    ensures ItemsAllowed(items) <==> ItemsAllowed(items[..1]) && ItemsAllowed(items[1..])
  {
    forall i | 0 < i < |items| ensures items[i] == items[1..][i - 1] {
    }
    assert items[..1][0] == items[0];
  }

  lemma {:induction false} EntriesAllowed(
    tenant: string, subscriber: string, items: seq<Item>, actor: string, ip: string
  )
    ensures AllAllowed(Entries(tenant, subscriber, items, actor, ip)) <==> ItemsAllowed(items)
  {
    if items != [] {
      ItemsAllowedOneByOne(items);
      EntriesAllowed(tenant, subscriber, items[1..], actor, ip);
      ChannelsAllowed(items[0].channel);
    }
  }

  // An update that changes anything stores just what its items say: each preference they set gets the choice of the
  // last item to set it, no other preference changes, and the ledger gains one row for each item with a channel, in
  // order. With nothing failing, one whose channels the database accepts does so and is answered "updated".
  lemma {:induction false} UpdateMeans(s: Store, r: Request, faults: seq<Fault>, commit: Fault)
    requires r.Update?
    ensures Serve(s, r, faults, commit).1 == s || (r.wellFormed && Updated(s, Serve(s, r, faults, commit).1, r))
    ensures r.wellFormed && ItemsAllowed(r.items) ==>
              Serve(s, r, [], NoFault).0 == Ok200 && Updated(s, Serve(s, r, [], NoFault).1, r)
  {
    AllOrNothing(s, r, faults, commit);
    if r.wellFormed {
      IntentStored(s, r);
      if ItemsAllowed(r.items) {
        CleanUpdate(s, r);
      }
    }
  }

  // A malformed update is refused, and one with a channel that the database does not accept fails; neither stores
  // anything.
  lemma UpdateRefused(s: Store, r: Request, faults: seq<Fault>, commit: Fault)
    requires r.Update?
    ensures !r.wellFormed ==>
              Serve(s, r, faults, commit) in {(Bad400, s), (Internal500, s)} && Serve(s, r, [], NoFault) == (Bad400, s)
    ensures r.wellFormed && !ItemsAllowed(r.items) ==> Serve(s, r, faults, commit) == (Internal500, s)
  {
    if r.wellFormed && !Begin(s, faults).aborted {
      EntriesAllowed(r.tenant, r.subscriber, r.items, r.actor, r.ip);
      EntriesNormal(r.tenant, r.subscriber, r.items, r.actor, r.ip);
      ApplyItemsExact(Begin(s, faults), faults, Intent(r));
    }
  }

  lemma IntentStored(s: Store, r: Request)
    requires r.Update? && r.wellFormed
    ensures Updated(s, Appended(s, Intent(r)), r)
  {
    var t := Appended(s, Intent(r));
    AppendedLedger(s, Intent(r));
    EntriesAreRows(r.tenant, r.subscriber, r.items, r.actor, r.ip);
    assert t.ledger[|s.ledger|..] == Intent(r);
    forall k: Key ensures DecidedBy(s.matrix, t.matrix, r.tenant, r.subscriber, r.items, k) {
      UpdateDecides(s, r.tenant, r.subscriber, r.items, r.actor, r.ip, k);
    }
  }

  lemma CleanUpdate(s: Store, r: Request)
    requires r.Update? && r.wellFormed && ItemsAllowed(r.items)
    ensures Serve(s, r, [], NoFault) == (Ok200, Appended(s, Intent(r)))
  {
    EntriesAllowed(r.tenant, r.subscriber, r.items, r.actor, r.ip);
    EntriesNormal(r.tenant, r.subscriber, r.items, r.actor, r.ip);
    AllOrNothing(s, r, [], NoFault);
    ApplyItemsExact(Begin(s, []), [], Intent(r));
  }

  // An unsubscribe that changes anything turns off the named channel, or all of them when none is named, in every
  // category, and records that one choice. With nothing failing it does so if the database accepts the channel.
  lemma {:induction false} UnsubscribeMeans(s: Store, r: Request, faults: seq<Fault>, commit: Fault)
    requires r.Unsubscribe?
    ensures var channel := if r.channel == "" then "all" else r.channel;
            var k := Key(r.tenant, r.subscriber, channel, "all");
            var t := Store(s.matrix[k := false], s.ledger + [Entry(k, false, "unsubscribe_link", "subscriber", r.ip)]);
            && Serve(s, r, faults, commit).1 in {s, t}
            && (r.tenant == "" || r.subscriber == "" ==> Serve(s, r, faults, commit) == (Bad400, s))
            && (r.tenant != "" && r.subscriber != "" ==>
                  && (Serve(s, r, faults, commit).0 == Ok200 ==> Serve(s, r, faults, commit).1 == t)
                  && (commit != NoFault ==> Serve(s, r, faults, commit).0 == Internal500)
                  && (AllowedChannel(channel) ==> Serve(s, r, [], NoFault) == (Ok200, t)))
  {
  }

  // ---- Agreement over whole histories ----

  lemma {:induction false} AppendedAgrees(s: Store, entries: seq<Entry>)
    requires Agreement(s)
    ensures Agreement(Appended(s, entries))
    decreases entries
  {
    if entries != [] {
      var e := entries[0];
      var s' := Store(s.matrix[e.key := e.optedIn], s.ledger + [e]);
      assert s'.ledger[..|s'.ledger| - 1] == s.ledger;
      AppendedAgrees(s', entries[1..]);
    }
  }

  datatype Call = Call(request: Request, faults: seq<Fault>, commit: Fault)

  function History(s: Store, calls: seq<Call>): Store {
    if calls == [] then s
    else
      var last := calls[|calls| - 1];
      Serve(History(s, calls[..|calls| - 1]), last.request, last.faults, last.commit).1
  }

  // After any sequence of requests and failures, a preference row exists iff the ledger has an entry
  // for its key, and holds the last such entry's value.
  lemma {:induction false} LedgerDeterminesMatrix(calls: seq<Call>, k: Key)
    ensures Agreement(History(EMPTY, calls))
    ensures var s := History(EMPTY, calls);
            && (k in s.matrix <==> Mentions(s.ledger, k))
            && (k in s.matrix ==> LastSays(s.ledger, k, s.matrix[k]))
  {
    var s := History(EMPTY, calls);
    if calls != [] {
      var last := calls[|calls| - 1];
      LedgerDeterminesMatrix(calls[..|calls| - 1], k);
      var before := History(EMPTY, calls[..|calls| - 1]);
      AllOrNothing(before, last.request, last.faults, last.commit);
      AppendedAgrees(before, Intent(last.request));
    }
    ReplayIsLastEntry(s.ledger, k);
  }

  // What the ledger itself says of a lookup: the last entry for the most specific key it mentions, and yes if it
  // mentions none.
  ghost predicate Consents(ledger: seq<Entry>, q: Key) {
    var channelOnly, categoryOnly := q.(category := ALL), q.(channel := ALL);
    var neither := q.(channel := ALL, category := ALL);
    if Mentions(ledger, q) then LastSays(ledger, q, true)
    else if Mentions(ledger, channelOnly) then LastSays(ledger, channelOnly, true)
    else if Mentions(ledger, categoryOnly) then LastSays(ledger, categoryOnly, true)
    else Mentions(ledger, neither) ==> LastSays(ledger, neither, true)
  }

  // After any sequence of requests and failures the matrix answers every lookup as the ledger does.
  lemma {:induction false} LookupFollowsLedger(calls: seq<Call>, q: Key)
    ensures OptedIn(History(EMPTY, calls).matrix, q) <==> Consents(History(EMPTY, calls).ledger, q)
  {
    var ledger := History(EMPTY, calls).ledger;
    LedgerDeterminesMatrix(calls, q);
    ReplayIsLastEntry(ledger, q);
    ReplayIsLastEntry(ledger, q.(category := ALL));
    ReplayIsLastEntry(ledger, q.(channel := ALL));
    ReplayIsLastEntry(ledger, q.(channel := ALL, category := ALL));
  }

  // ---- The store as the handlers see it ----

  class ConsentStore {
    var matrix: Matrix
    var ledger: seq<Entry>
    var aborted: bool
    var used: nat

    constructor ()
      ensures Tables() == EMPTY
    {
      matrix, ledger, aborted, used := map[], [], false, 0;
    }

    function Tables(): Store
      reads this
    {
      Store(matrix, ledger)
    }

    function State(): Tx
      reads this
    {
      Transaction(Tables(), aborted, used)
    }

    method Execute(faults: seq<Fault>, allowed: bool)
      modifies this
      ensures State() == Statement(old(State()), faults, allowed)
    {
      aborted := aborted || !allowed || !Succeeds(faults, used);
      used := used + 1;
    }

    method UpsertRow(faults: seq<Fault>, k: Key, v: bool)
      modifies this
      ensures State() == Upsert(old(State()), faults, k, v)
    {
      Execute(faults, AllowedChannel(k.channel));
      if !aborted {
        matrix := matrix[k := v];
      }
    }

    method AppendEntry(faults: seq<Fault>, entry: Entry)
      modifies this
      ensures State() == Record(old(State()), faults, entry)
    {
      var e := entry;
      if e.key.category == "" {
        e := e.(key := e.key.(category := ALL));
      }
      if e.source == "" {
        e := e.(source := "api");
      }
      Execute(faults, true);
      if !aborted {
        ledger := ledger + [e];
      }
    }

    method BeginTx(faults: seq<Fault>)
      modifies this
      ensures State() == Begin(old(Tables()), faults)
    {
      aborted, used := false, 0;
      Execute(faults, true);
      Execute(faults, true);
    }

    // The preferences endpoint inside its request transaction.
    method UpdatePreferences(r: Request, faults: seq<Fault>, commit: Fault) returns (status: Status)
      requires r.Update?
      modifies this
      ensures (status, Tables()) == Serve(old(Tables()), r, faults, commit)
    {
      var matrix0, ledger0 := matrix, ledger;
      BeginTx(faults);
      if aborted {
        return Internal500;
      }
      if !r.wellFormed {
        return Bad400;
      }
      ghost var start := State();
      for i := 0 to |r.items|
        invariant ApplyItems(State(), faults, Entries(r.tenant, r.subscriber, r.items[i..], r.actor, r.ip)) ==
                  ApplyItems(start, faults, Intent(r))
      {
        var item := r.items[i];
        assert r.items[i..][1..] == r.items[i + 1..];
        if item.channel != "" {
          var e := EntryOf(r.tenant, r.subscriber, item, r.actor, r.ip);
          ghost var rest := Entries(r.tenant, r.subscriber, r.items[i + 1..], r.actor, r.ip);
          assert ([e] + rest)[1..] == rest;
          UpsertRow(faults, e.key, e.optedIn);
          if aborted {
            matrix, ledger := matrix0, ledger0;
            return Internal500;
          }
          AppendEntry(faults, e);
        }
      }
      status := Ok200;
      if !Commits(aborted, commit) {
        matrix, ledger := matrix0, ledger0;
      }
    }

    // The one-click unsubscribe endpoint, which opens its own tenant transaction.
    method UnsubscribeLink(r: Request, faults: seq<Fault>, commit: Fault) returns (status: Status)
      requires r.Unsubscribe?
      modifies this
      ensures (status, Tables()) == Serve(old(Tables()), r, faults, commit)
    {
      if r.tenant == "" || r.subscriber == "" {
        return Bad400;
      }
      var matrix0, ledger0 := matrix, ledger;
      BeginTx(faults);
      if aborted {
        return Internal500;
      }
      var e := UnsubscribeEntry(r);
      UpsertRow(faults, e.key, false);
      if aborted {
        matrix, ledger := matrix0, ledger0;
        return Internal500;
      }
      AppendEntry(faults, e);
      if Commits(aborted, commit) {
        status := if commit == NoFault then Ok200 else Internal500;
      } else {
        matrix, ledger := matrix0, ledger0;
        status := Internal500;
      }
    }
  }
}
