/** Connection limits: eviction events are counted exactly once, and enough of them raise an alert. */
module Admission {
  import opened Tables
  import opened Sets

  const NOTIFY_SECONDS := 30 * 60
  const ALERT_EVENTS := 5
  const ALERT_SECONDS := 24 * 3600
  const RETENTION_SECONDS := 7 * 24 * 3600

  /** An event's identity: the node, its boot and the sequence number there. */
  type Key = nat
  datatype Kind = Evicted | WouldEvict | Unrelated
  datatype Fact = Fact(email: nat, kind: Kind, at: int)
  /** What the nodes' own journals say; an identity never changes its content. */
  type Journal = map<Key, Fact>

  datatype Entry = Entry(device: DeviceId, kind: Kind, at: int, alerted: bool)
  /** notices are the deduplication keys of the notifications queued so far. */
  datatype Ledger = Ledger(events: map<Key, Entry>, notices: set<(DeviceId, int)>, alerts: map<DeviceId, nat>)
  /** One observation: the events a node reported, the clock, and the clients on record. */
  datatype Batch = Batch(keys: seq<Key>, now: int, known: map<nat, DeviceId>)

  function AlertsOf(l: Ledger, d: DeviceId): nat { if d in l.alerts then l.alerts[d] else 0 }

  predicate Relevant(j: Journal, b: Batch, k: Key) { k in j && j[k].email in b.known && !j[k].kind.Unrelated? }

  /** Events the batch inserts. */
  function New(j: Journal, l: Ledger, b: Batch): set<Key> {
    set k | k in b.keys && Relevant(j, b, k) && k !in l.events
  }

  function Device(j: Journal, b: Batch, k: Key): DeviceId
    requires Relevant(j, b, k)
  {
    b.known[j[k].email]
  }

  function Notice(j: Journal, b: Batch, k: Key): (DeviceId, int)
    requires Relevant(j, b, k)
  {
    (Device(j, b, k), j[k].at / NOTIFY_SECONDS)
  }

  predicate Notifies(j: Journal, b: Batch, k: Key) {
    Relevant(j, b, k) && j[k].kind.Evicted? && j[k].at > b.now - NOTIFY_SECONDS
  }

  function EntryFor(j: Journal, b: Batch, k: Key): Entry
    requires Relevant(j, b, k)
  {
    Entry(Device(j, b, k), j[k].kind, j[k].at, false)
  }

  function NewEntries(j: Journal, b: Batch, ks: set<Key>): map<Key, Entry> {
    map k | k in ks && Relevant(j, b, k) :: EntryFor(j, b, k)
  }

  function NewNotices(j: Journal, b: Batch, ks: set<Key>): set<(DeviceId, int)> {
    set k | k in ks && Notifies(j, b, k) :: Notice(j, b, k)
  }

  /** The ledger with the given events inserted. */
  function Stored(j: Journal, l: Ledger, b: Batch, ks: set<Key>): Ledger {
    l.(events := l.events + NewEntries(j, b, ks), notices := l.notices + NewNotices(j, b, ks))
  }

  function WithEvents(j: Journal, l: Ledger, b: Batch): Ledger { Stored(j, l, b, New(j, l, b)) }

  function DevicesOf(j: Journal, b: Batch, ks: set<Key>): set<DeviceId> { set k | k in ks && Relevant(j, b, k) :: Device(j, b, k) }

  function Touched(j: Journal, l: Ledger, b: Batch): set<DeviceId> { DevicesOf(j, b, New(j, l, b)) }

  /** The device's events that count towards its next alert. */
  function Counting(events: map<Key, Entry>, d: DeviceId, now: int): set<Key> {
    set k | k in events && events[k].device == d && !events[k].alerted && events[k].at >= now - ALERT_SECONDS
  }

  predicate Alarms(l: Ledger, d: DeviceId, now: int) { |Counting(l.events, d, now)| >= ALERT_EVENTS }

  /** _alert for one device. */
  function Alerted(l: Ledger, d: DeviceId, now: int): Ledger {
    if !Alarms(l, d, now) then l
    else l.(events := map k | k in l.events :: if k in Counting(l.events, d, now) then l.events[k].(alerted := true) else l.events[k],
            alerts := l.alerts[d := AlertsOf(l, d) + 1])
  }

  /** _alert for several devices; they do not share events. */
  function AlertedAll(l: Ledger, ds: set<DeviceId>, now: int): Ledger {
    l.(events := map k | k in l.events ::
         if l.events[k].device in ds && Alarms(l, l.events[k].device, now) && k in Counting(l.events, l.events[k].device, now)
         then l.events[k].(alerted := true) else l.events[k],
       alerts := l.alerts + MoreAlerts(l, ds, now))
  }

  function Purged(l: Ledger, now: int): Ledger {
    l.(events := map k | k in l.events && l.events[k].at >= now - RETENTION_SECONDS :: l.events[k])
  }

  /** _store. */
  function Ingest(j: Journal, l: Ledger, b: Batch): Ledger {
    Purged(AlertedAll(WithEvents(j, l, b), Touched(j, l, b), b.now), b.now)
  }

  // ----- Runs -----

  /** seen: every event ever inserted, with its device. spent: every event that was part of an alert. */
  datatype Record = Record(ledger: Ledger, last: int, seen: set<(DeviceId, Key)>, spent: set<(DeviceId, Key)>)

  ghost function SeenNow(j: Journal, l: Ledger, b: Batch): set<(DeviceId, Key)> {
    set k | k in New(j, l, b) :: (Device(j, b, k), k)
  }

  ghost function SpentNow(j: Journal, l: Ledger, b: Batch): set<(DeviceId, Key)> {
    var m := WithEvents(j, l, b);
    set d, k | d in Touched(j, l, b) && Alarms(m, d, b.now) && k in Counting(m.events, d, b.now) :: (d, k)
  }

  ghost function After(j: Journal, r: Record, b: Batch): Record {
    Record(Ingest(j, r.ledger, b), b.now, r.seen + SeenNow(j, r.ledger, b), r.spent + SpentNow(j, r.ledger, b))
  }

  ghost predicate Seen(r: Record, k: Key) { exists d :: (d, k) in r.seen }

  ghost function KeysOf(pairs: set<(DeviceId, Key)>, d: DeviceId): set<Key> { set x | x in pairs && x.0 == d :: x.1 }

  /** An entry says what the journal says, and is within retention. */
  predicate Faithful(j: Journal, l: Ledger, k: Key, last: int)
    requires k in l.events
  {
    k in j && l.events[k].at == j[k].at && l.events[k].at >= last - RETENTION_SECONDS
  }

  /** An event that was inserted is on record, or too old to be. */
  predicate Kept(j: Journal, l: Ledger, k: Key, last: int) {
    k in j && (k in l.events || j[k].at < last - RETENTION_SECONDS)
  }

  ghost predicate Entries(j: Journal, r: Record) {
    (forall k :: k in r.ledger.events ==> Faithful(j, r.ledger, k, r.last)) &&
    (forall x :: x in r.seen ==> Kept(j, r.ledger, x.1, r.last))
  }

  ghost predicate Spent(r: Record) {
    r.spent <= r.seen && forall x :: x in r.spent && x.1 in r.ledger.events ==> r.ledger.events[x.1].alerted
  }

  ghost predicate Few(r: Record) { forall d :: |Counting(r.ledger.events, d, r.last)| < ALERT_EVENTS }

  ghost predicate Paid(r: Record) { forall d :: ALERT_EVENTS * AlertsOf(r.ledger, d) <= |KeysOf(r.spent, d)| }

  ghost predicate Owners(r: Record) { forall k :: k in r.ledger.events ==> (r.ledger.events[k].device, k) in r.seen }

  ghost predicate Inv(j: Journal, r: Record) { Entries(j, r) && Spent(r) && Few(r) && Paid(r) && Owners(r) }

  lemma KeepsEntries(j: Journal, r: Record, b: Batch)
    requires Entries(j, r) && r.last <= b.now
    ensures Entries(j, After(j, r, b))
  {
  }

  lemma KeepsOwners(j: Journal, r: Record, b: Batch)
    requires Owners(r)
    ensures Owners(After(j, r, b))
  {
  }

  /** An event that was part of an alert is never part of another. */
  lemma SpentStays(j: Journal, r: Record, b: Batch, d: DeviceId, k: Key)
    requires Entries(j, r) && Spent(r) && r.last <= b.now && (d, k) in r.spent
    ensures forall e :: k !in Counting(WithEvents(j, r.ledger, b).events, e, b.now)
    ensures k in After(j, r, b).ledger.events ==> After(j, r, b).ledger.events[k].alerted
  {
  }

  lemma KeepsSpent(j: Journal, r: Record, b: Batch)
    requires Entries(j, r) && Spent(r) && Owners(r) && r.last <= b.now
    ensures Spent(After(j, r, b))
  {
  }

  /** After an ingest no device has enough un-alerted events left for an alert. */
  lemma KeepsFew(j: Journal, r: Record, b: Batch, d: DeviceId)
    requires |Counting(r.ledger.events, d, r.last)| < ALERT_EVENTS && r.last <= b.now
    ensures |Counting(After(j, r, b).ledger.events, d, b.now)| < ALERT_EVENTS
  {
    var m, end := WithEvents(j, r.ledger, b), After(j, r, b).ledger;
    CountingAfter(m, Touched(j, r.ledger, b), d, b.now);
    if d !in Touched(j, r.ledger, b) {
      CountingUntouched(j, r, b, d);
      Smaller(Counting(end.events, d, b.now), Counting(r.ledger.events, d, r.last));
    } else if !Alarms(m, d, b.now) {
      Smaller(Counting(end.events, d, b.now), Counting(m.events, d, b.now));
    }
  }

  /** Alerts and purging leave a subset of what counts, and nothing of a device that was alerted. */
  lemma CountingAfter(m: Ledger, ds: set<DeviceId>, d: DeviceId, now: int)
    ensures Counting(Purged(AlertedAll(m, ds, now), now).events, d, now) <= Counting(m.events, d, now)
    ensures d in ds && Alarms(m, d, now) ==> Counting(Purged(AlertedAll(m, ds, now), now).events, d, now) == {}
  {
  }

  lemma CountingUntouched(j: Journal, r: Record, b: Batch, d: DeviceId)
    requires d !in Touched(j, r.ledger, b) && r.last <= b.now
    ensures Counting(WithEvents(j, r.ledger, b).events, d, b.now) <= Counting(r.ledger.events, d, r.last)
  {
  }

  lemma Union<T>(a: set<T>, b: set<T>)
    requires a !! b
    ensures |a + b| == |a| + |b|
  {
  }

  lemma SpentKeys(j: Journal, r: Record, b: Batch, d: DeviceId)
    ensures var m := WithEvents(j, r.ledger, b);
      KeysOf(After(j, r, b).spent, d) == KeysOf(r.spent, d) +
        if d in Touched(j, r.ledger, b) && Alarms(m, d, b.now) then Counting(m.events, d, b.now) else {}
  {
    var m := WithEvents(j, r.ledger, b);
    var now := if d in Touched(j, r.ledger, b) && Alarms(m, d, b.now) then Counting(m.events, d, b.now) else {};
    forall k
      ensures k in KeysOf(After(j, r, b).spent, d) <==> k in KeysOf(r.spent, d) + now
    {
      assert k in now <==> (d, k) in SpentNow(j, r.ledger, b);
      assert k in KeysOf(r.spent, d) <==> (d, k) in r.spent;
      assert k in KeysOf(After(j, r, b).spent, d) <==> (d, k) in After(j, r, b).spent;
    }
  }

  lemma KeepsPaid(j: Journal, r: Record, b: Batch, d: DeviceId)
    requires Entries(j, r) && Spent(r) && r.last <= b.now
    requires ALERT_EVENTS * AlertsOf(r.ledger, d) <= |KeysOf(r.spent, d)|
    ensures ALERT_EVENTS * AlertsOf(After(j, r, b).ledger, d) <= |KeysOf(After(j, r, b).spent, d)|
  {
    var m := WithEvents(j, r.ledger, b);
    SpentKeys(j, r, b, d);
    if d in Touched(j, r.ledger, b) && Alarms(m, d, b.now) {
      forall k | k in KeysOf(r.spent, d)
        ensures k !in Counting(m.events, d, b.now)
      {
        SpentStays(j, r, b, d, k);
      }
      Union(KeysOf(r.spent, d), Counting(m.events, d, b.now));
    }
  }

  lemma Keeps(j: Journal, r: Record, b: Batch)
    requires Inv(j, r) && r.last <= b.now
    ensures Inv(j, After(j, r, b))
  {
    KeepsEntries(j, r, b);
    KeepsOwners(j, r, b);
    KeepsSpent(j, r, b);
    forall d
      ensures |Counting(After(j, r, b).ledger.events, d, b.now)| < ALERT_EVENTS
      ensures ALERT_EVENTS * AlertsOf(After(j, r, b).ledger, d) <= |KeysOf(After(j, r, b).spent, d)|
    {
      KeepsFew(j, r, b, d);
      KeepsPaid(j, r, b, d);
    }
  }

  const EMPTY := Ledger(map[], {}, map[])

  datatype Log = Log(states: seq<Record>, batches: seq<Batch>)

  /** The clock does not go back from one ingest to the next. */
  ghost predicate StepAt(j: Journal, l: Log, i: nat) {
    i < |l.batches| && i + 1 < |l.states| && l.states[i].last <= l.batches[i].now &&
    l.states[i + 1] == After(j, l.states[i], l.batches[i])
  }

  ghost predicate IsLog(j: Journal, l: Log) {
    |l.states| == |l.batches| + 1 && l.states[0] == Record(EMPTY, l.states[0].last, {}, {}) &&
    forall i: nat :: i < |l.batches| ==> StepAt(j, l, i)
  }

  lemma StartsWell(j: Journal, r: Record)
    requires r == Record(EMPTY, r.last, {}, {})
    ensures Inv(j, r)
  {
  }

  lemma InvAt(j: Journal, l: Log, i: nat)
    requires i > 0 && StepAt(j, l, i - 1) && Inv(j, l.states[i - 1])
    ensures Inv(j, l.states[i])
  {
    Keeps(j, l.states[i - 1], l.batches[i - 1]);
  }

  lemma {:induction false} Reachable(j: Journal, l: Log, n: nat)
    requires IsLog(j, l) && n < |l.states|
    ensures Inv(j, l.states[n])
  {
    if n == 0 {
      StartsWell(j, l.states[0]);
    } else {
      Reachable(j, l, n - 1);
      InvAt(j, l, n);
    }
  }

  /** After every ingest each device has fewer than 5 un-alerted events in its 24 hours, and over the whole run an alert
      took 5 events of its own. */
  lemma AlertBound(j: Journal, l: Log, n: nat, d: DeviceId)
    requires IsLog(j, l) && n < |l.states|
    ensures |Counting(l.states[n].ledger.events, d, l.states[n].last)| < 5
    ensures 5 * AlertsOf(l.states[n].ledger, d) <= |KeysOf(l.states[n].seen, d)|
  {
    Reachable(j, l, n);
    Smaller(KeysOf(l.states[n].spent, d), KeysOf(l.states[n].seen, d));
  }

  /** What a repeated batch inserts again is older than retention. */
  lemma OnlyOldAgain(j: Journal, r: Record, b: Batch, k: Key)
    requires Entries(j, r) && r.last <= b.now && k in New(j, r.ledger, b) && Seen(r, k)
    ensures j[k].at < b.now - RETENTION_SECONDS
  {
  }

  lemma NoAlarm(j: Journal, r: Record, b: Batch, d: DeviceId)
    requires Few(r) && r.last <= b.now && AllTooOld(j, r.ledger, b)
    ensures !Alarms(WithEvents(j, r.ledger, b), d, b.now)
  {
    Smaller(Counting(WithEvents(j, r.ledger, b).events, d, b.now), Counting(r.ledger.events, d, r.last));
  }

  lemma QuietAlerts(l: Ledger, ds: set<DeviceId>, now: int)
    requires forall d :: !Alarms(l, d, now)
    ensures AlertedAll(l, ds, now) == l
  {
  }

  lemma OldIsPurged(j: Journal, l: Ledger, b: Batch)
    requires AllTooOld(j, l, b)
    ensures Purged(WithEvents(j, l, b), b.now) == Purged(l, b.now)
  {
  }

  /** Exactly when a batch adds nothing, to the events, the notifications and the alerts: everything it would insert is
      older than retention. */
  lemma AddsNothingExactly(j: Journal, r: Record, b: Batch)
    requires Inv(j, r) && r.last <= b.now
    ensures Ingest(j, r.ledger, b) == Purged(r.ledger, b.now) <==> AllTooOld(j, r.ledger, b)
  {
    if AllTooOld(j, r.ledger, b) {
      forall d
        ensures !Alarms(WithEvents(j, r.ledger, b), d, b.now)
      {
        NoAlarm(j, r, b, d);
      }
      QuietAlerts(WithEvents(j, r.ledger, b), Touched(j, r.ledger, b), b.now);
      OldIsPurged(j, r.ledger, b);
    } else {
      var k :| k in New(j, r.ledger, b) && j[k].at >= b.now - RETENTION_SECONDS;
      assert k in Ingest(j, r.ledger, b).events && k !in Purged(r.ledger, b.now).events;
    }
  }

  /** Everything the batch would insert is older than retention. */
  ghost predicate AllTooOld(j: Journal, l: Ledger, b: Batch) {
    forall k :: k in New(j, l, b) ==> j[k].at < b.now - RETENTION_SECONDS
  }

  /** Events already counted change nothing but what retention removes. */
  lemma NothingNew(j: Journal, r: Record, b: Batch)
    requires Inv(j, r) && r.last <= b.now && forall k :: k in b.keys && Relevant(j, b, k) ==> Seen(r, k)
    ensures Ingest(j, r.ledger, b) == Purged(r.ledger, b.now)
  {
    forall k | k in New(j, r.ledger, b)
      ensures j[k].at < b.now - RETENTION_SECONDS
    {
      OnlyOldAgain(j, r, b, k);
    }
    AddsNothingExactly(j, r, b);
  }

  lemma OwnersAt(j: Journal, l: Log, i: nat)
    requires IsLog(j, l) && i < |l.states|
    ensures Owners(l.states[i])
  {
    Reachable(j, l, i);
  }

  lemma SeenAt(j: Journal, l: Log, i: nat, k: Key)
    requires IsLog(j, l) && i < |l.batches| && k in l.batches[i].keys && Relevant(j, l.batches[i], k)
    ensures Seen(l.states[i + 1], k)
  {
    OwnersAt(j, l, i);
    assert StepAt(j, l, i);
    var r, b := l.states[i], l.batches[i];
    if k in r.ledger.events { assert (r.ledger.events[k].device, k) in l.states[i + 1].seen; }
    else { assert (Device(j, b, k), k) in SeenNow(j, r.ledger, b); }
  }

  lemma {:induction false} SeenStays(j: Journal, l: Log, i: nat, n: nat, k: Key)
    requires IsLog(j, l) && i <= n < |l.states| && Seen(l.states[i], k)
    ensures Seen(l.states[n], k)
    decreases n
  {
    if i == n {
    } else {
      SeenStays(j, l, i, n - 1, k);
      assert StepAt(j, l, n - 1);
      var d :| (d, k) in l.states[n - 1].seen;
      assert (d, k) in l.states[n].seen;
    }
  }

  lemma SeenLater(j: Journal, l: Log, i: nat, n: nat, k: Key)
    requires IsLog(j, l) && i < n < |l.states| && k in l.batches[i].keys && Relevant(j, l.batches[i], k)
    ensures Seen(l.states[n], k)
  {
    SeenAt(j, l, i, k);
    SeenStays(j, l, i + 1, n, k);
  }

  /** Replaying a batch at any later time adds no event, no notification and no alert, also after retention has purged
      its events, as long as no client of the batch that was unknown then is known now. */
  lemma ReplayAddsNothing(j: Journal, l: Log, i: nat, n: nat, again: Batch)
    requires IsLog(j, l) && i < n < |l.states| && l.states[n].last <= again.now
    requires forall k :: k in again.keys && Relevant(j, again, k) ==> k in l.batches[i].keys && Relevant(j, l.batches[i], k)
    ensures Ingest(j, l.states[n].ledger, again) == Purged(l.states[n].ledger, again.now)
  {
    forall k | k in again.keys && Relevant(j, again, k)
      ensures Seen(l.states[n], k)
    {
      SeenLater(j, l, i, n, k);
    }
    Reachable(j, l, n);
    NothingNew(j, l.states[n], again);
  }

  /** An event of a known client that was never counted and is within retention. */
  ghost predicate Uncounted(j: Journal, r: Record, b: Batch, k: Key) {
    k in b.keys && Relevant(j, b, k) && !Seen(r, k) && j[k].at >= b.now - RETENTION_SECONDS
  }

  /** Exactly when replaying the events of an earlier batch, at any later time, adds anything: one of them was never
      counted and is still within retention; its client was then unknown when the batch was first ingested. */
  lemma ReplayExactly(j: Journal, l: Log, i: nat, n: nat, again: Batch)
    requires IsLog(j, l) && i < n < |l.states| && l.states[n].last <= again.now
    requires forall k :: k in again.keys ==> k in l.batches[i].keys
    ensures Ingest(j, l.states[n].ledger, again) != Purged(l.states[n].ledger, again.now) <==>
            exists k :: Uncounted(j, l.states[n], again, k)
    ensures forall k :: Uncounted(j, l.states[n], again, k) ==> k in j && j[k].email !in l.batches[i].known
  {
    Reachable(j, l, n);
    AddsNothingExactly(j, l.states[n], again);
    NewOrUncounted(j, l.states[n], again);
    forall k | Uncounted(j, l.states[n], again, k)
      ensures j[k].email !in l.batches[i].known
    {
      if Relevant(j, l.batches[i], k) { SeenLater(j, l, i, n, k); }
    }
  }

  lemma NewOrUncounted(j: Journal, r: Record, b: Batch)
    requires Inv(j, r) && r.last <= b.now
    ensures AllTooOld(j, r.ledger, b) <==> forall k :: !Uncounted(j, r, b, k)
  {
    forall k | k in New(j, r.ledger, b) && Seen(r, k)
      ensures j[k].at < b.now - RETENTION_SECONDS
    {
      OnlyOldAgain(j, r, b, k);
    }
    forall k | k in r.ledger.events
      ensures Seen(r, k)
    {
      assert (r.ledger.events[k].device, k) in r.seen;
    }
    assert forall k :: Uncounted(j, r, b, k) ==> k in New(j, r.ledger, b);
    if !AllTooOld(j, r.ledger, b) {
      var k :| k in New(j, r.ledger, b) && j[k].at >= b.now - RETENTION_SECONDS;
      assert Uncounted(j, r, b, k);
    }
  }

  /** Event 1 of client 9 is ingested while the client is unknown; replayed once the client is on record, it is counted. */
  lemma LateClient() returns (j: Journal, l: Log, again: Batch)
    ensures IsLog(j, l) && |l.batches| == 1 && again.keys == l.batches[0].keys && l.batches[0].now <= again.now
    ensures Ingest(j, l.states[1].ledger, again) != Purged(l.states[1].ledger, again.now)
    ensures 1 in Ingest(j, l.states[1].ledger, again).events && 1 !in l.states[1].ledger.events
  {
    j := map[1 := Fact(9, Evicted, 0)];
    again := Batch([1], 60, map[9 := 5]);
    l := FirstIngest(j, Batch([1], 0, map[]));
    KnownClient(j, again);
  }

  lemma FirstIngest(j: Journal, b: Batch) returns (l: Log)
    requires b.known == map[]
    ensures IsLog(j, l) && l.batches == [b] && l.states[1].ledger == EMPTY
  {
    var start := Record(EMPTY, b.now, {}, {});
    UnknownClient(j, start, b);
    l := Log([start, After(j, start, b)], [b]);
    assert StepAt(j, l, 0);
  }

  lemma UnknownClient(j: Journal, r: Record, b: Batch)
    requires r.ledger == EMPTY && b.known == map[]
    ensures After(j, r, b).ledger == EMPTY
  {
    assert New(j, EMPTY, b) == {};
    assert AlertedAll(EMPTY, {}, b.now).alerts == map[];
    assert WithEvents(j, EMPTY, b) == EMPTY;
  }

  lemma KnownClient(j: Journal, b: Batch)
    requires j == map[1 := Fact(9, Evicted, 0)] && b == Batch([1], 60, map[9 := 5])
    ensures 1 in Ingest(j, EMPTY, b).events
  {
    assert 1 in b.keys && 1 in New(j, EMPTY, b);
  }

  // ----- One observation, column by column -----

  /** The batch reports an eviction of the device's that is not on record and less than half an hour old. */
  ghost predicate Evicts(j: Journal, l: Ledger, b: Batch, k: Key, d: DeviceId) {
    k in b.keys && k !in l.events && k in j && j[k].kind == Evicted && j[k].email in b.known && b.known[j[k].email] == d &&
    j[k].at > b.now - 1800
  }

  /** A notification is queued for exactly these, one per device and half hour. */
  lemma NoticesExactly(j: Journal, l: Ledger, b: Batch, d: DeviceId, slot: int)
    ensures (d, slot) in Ingest(j, l, b).notices <==>
      (d, slot) in l.notices || exists k :: Evicts(j, l, b, k, d) && slot == j[k].at / 1800
  {
    if k :| Evicts(j, l, b, k, d) && slot == j[k].at / 1800 {
      assert k in New(j, l, b) && Notifies(j, b, k) && Notice(j, b, k) == (d, slot);
    }
    if (d, slot) in NewNotices(j, b, New(j, l, b)) {
      var k :| k in New(j, l, b) && Notifies(j, b, k) && Notice(j, b, k) == (d, slot);
      assert Evicts(j, l, b, k, d);
    }
  }

  /** The batch reports an event of a known client that is not on record. */
  predicate Brings(j: Journal, l: Ledger, b: Batch, k: Key) {
    k in b.keys && k !in l.events && k in j && (j[k].kind == Evicted || j[k].kind == WouldEvict) && j[k].email in b.known
  }

  /** On record afterwards is what was on record or is new, of the last seven days. */
  lemma EventsExactly(j: Journal, l: Ledger, b: Batch, k: Key)
    ensures k in Ingest(j, l, b).events <==>
      (k in l.events && l.events[k].at >= b.now - 604800) || (Brings(j, l, b, k) && j[k].at >= b.now - 604800)
    ensures k in Ingest(j, l, b).events && k in l.events ==>
      var e := Ingest(j, l, b).events[k]; e == l.events[k].(alerted := e.alerted) && (l.events[k].alerted ==> e.alerted)
    ensures k in Ingest(j, l, b).events && k !in l.events ==>
      var e := Ingest(j, l, b).events[k]; e == Entry(b.known[j[k].email], j[k].kind, j[k].at, e.alerted)
  {
    assert k in New(j, l, b) <==> Brings(j, l, b, k);
  }

  /** The device's events of the last day that no alert has counted, with those the batch brings. */
  function Recent(j: Journal, l: Ledger, b: Batch, d: DeviceId): set<Key> {
    (set k | k in l.events && l.events[k].device == d && !l.events[k].alerted && l.events[k].at >= b.now - 86400) +
    (set k | k in b.keys && Brings(j, l, b, k) && b.known[j[k].email] == d && j[k].at >= b.now - 86400)
  }

  lemma CountingIsRecent(j: Journal, l: Ledger, b: Batch, d: DeviceId)
    ensures Counting(WithEvents(j, l, b).events, d, b.now) == Recent(j, l, b, d)
  {
    forall k
      ensures k in New(j, l, b) <==> Brings(j, l, b, k)
    {
    }
  }

  /** A device gets one more alert exactly when the batch brings an event of it and five are due. */
  lemma AlertsExactly(j: Journal, l: Ledger, b: Batch, d: DeviceId)
    ensures AlertsOf(Ingest(j, l, b), d) ==
      AlertsOf(l, d) + if (exists k :: Brings(j, l, b, k) && b.known[j[k].email] == d) && |Recent(j, l, b, d)| >= 5 then 1 else 0
  {
    CountingIsRecent(j, l, b, d);
    TouchedExactly(j, l, b, d);
    AlertedOne(WithEvents(j, l, b), Touched(j, l, b), d, b.now);
  }

  lemma TouchedExactly(j: Journal, l: Ledger, b: Batch, d: DeviceId)
    ensures d in Touched(j, l, b) <==> exists k :: Brings(j, l, b, k) && b.known[j[k].email] == d
  {
    forall k
      ensures k in New(j, l, b) <==> Brings(j, l, b, k)
    {
    }
  }

  lemma AlertedOne(l: Ledger, ds: set<DeviceId>, d: DeviceId, now: int)
    ensures AlertsOf(Purged(AlertedAll(l, ds, now), now), d) ==
      AlertsOf(l, d) + if d in ds && |Counting(l.events, d, now)| >= 5 then 1 else 0
  {
  }

  // ----- The tables -----

  class Limits {
    var events: map<Key, Entry>
    var notices: set<(DeviceId, int)>
    var alerts: map<DeviceId, nat>

    constructor ()
      ensures View() == EMPTY
    {
      events, notices, alerts := map[], {}, map[];
    }

    ghost function View(): Ledger
      reads this
    {
      Ledger(events, notices, alerts)
    }

    method InsertEvent(j: Journal, b: Batch, k: Key)
      requires Relevant(j, b, k)
      modifies this`events, this`notices
      ensures events == old(events)[k := EntryFor(j, b, k)]
      ensures notices == old(notices) + if Notifies(j, b, k) then {Notice(j, b, k)} else {}
    {
      var device := b.known[j[k].email];
      events := events[k := Entry(device, j[k].kind, j[k].at, false)];
      if j[k].kind.Evicted? && j[k].at > b.now - NOTIFY_SECONDS {
        notices := notices + {(device, j[k].at / NOTIFY_SECONDS)};
      }
    }

    /** The loop over the reported events. */
    method Insert(j: Journal, b: Batch) returns (touched: set<DeviceId>)
      modifies this`events, this`notices
      ensures View() == WithEvents(j, old(View()), b) && touched == Touched(j, old(View()), b)
    {
      ghost var was := View();
      touched := {};
      ghost var ks: set<Key> := {};
      StoredNone(j, was, b);
      for i := 0 to |b.keys|
        invariant forall k :: k in ks <==> k in b.keys[..i] && Relevant(j, b, k) && k !in was.events
        invariant View() == Stored(j, was, b, ks) && touched == DevicesOf(j, b, ks)
      {
        var k := b.keys[i];
        if k in j && j[k].email in b.known && !j[k].kind.Unrelated? && k !in events {
          AddKey(j, was, b, ks, k);
          InsertEvent(j, b, k);
          touched := touched + {b.known[j[k].email]};
          ks := ks + {k};
        }
      }
      assert ks == New(j, was, b);
    }

    /** _alert. */
    method Alert(d: DeviceId, now: int)
      modifies this`events, this`alerts
      ensures View() == Alerted(old(View()), d, now)
    {
      var rows := set k | k in events && events[k].device == d && !events[k].alerted && events[k].at >= now - ALERT_SECONDS;
      assert rows == Counting(events, d, now);
      if |rows| < ALERT_EVENTS { return; }
      alerts := alerts[d := (if d in alerts then alerts[d] else 0) + 1];
      events := map k | k in events :: if k in rows then events[k].(alerted := true) else events[k];
    }

    method AlertEach(touched: set<DeviceId>, now: int)
      modifies this`events, this`alerts
      ensures View() == AlertedAll(old(View()), touched, now)
    {
      ghost var m, done := View(), {};
      var todo := touched;
      NobodyAlerted(m, now);
      while todo != {}
        invariant todo !! done && todo + done == touched && View() == AlertedAll(m, done, now)
        decreases todo
      {
        var d :| d in todo;
        AlertOne(m, done, d, now);
        Alert(d, now);
        todo, done := todo - {d}, done + {d};
      }
      assert done == touched;
    }

    method Purge(now: int)
      modifies this`events
      ensures View() == Purged(old(View()), now)
    {
      events := map k | k in events && events[k].at >= now - RETENTION_SECONDS :: events[k];
    }

    /** _store. */
    method Store(j: Journal, b: Batch)
      modifies this
      ensures View() == Ingest(j, old(View()), b)
    {
      var touched := Insert(j, b);
      AlertEach(touched, b.now);
      Purge(b.now);
    }
  }

  lemma StoredNone(j: Journal, l: Ledger, b: Batch)
    ensures Stored(j, l, b, {}) == l
  {
  }

  /** Inserting one more event. */
  lemma AddKey(j: Journal, l: Ledger, b: Batch, ks: set<Key>, k: Key)
    requires Relevant(j, b, k) && k !in l.events && k !in ks
    ensures var now := Stored(j, l, b, ks + {k});
      now.events == Stored(j, l, b, ks).events[k := EntryFor(j, b, k)] &&
      now.notices == Stored(j, l, b, ks).notices + if Notifies(j, b, k) then {Notice(j, b, k)} else {}
    ensures DevicesOf(j, b, ks + {k}) == DevicesOf(j, b, ks) + {Device(j, b, k)}
  {
  }

  lemma NobodyAlerted(l: Ledger, now: int)
    ensures AlertedAll(l, {}, now) == l
  {
  }

  /** Alerting some devices leaves the pending events of the others alone. */
  lemma CountingApart(l: Ledger, ds: set<DeviceId>, d: DeviceId, now: int)
    requires d !in ds
    ensures Counting(AlertedAll(l, ds, now).events, d, now) == Counting(l.events, d, now)
  {
  }

  lemma AlertOneEvents(l: Ledger, ds: set<DeviceId>, d: DeviceId, now: int, k: Key)
    requires d !in ds && k in l.events && Counting(AlertedAll(l, ds, now).events, d, now) == Counting(l.events, d, now)
    ensures Alerted(AlertedAll(l, ds, now), d, now).events[k] == AlertedAll(l, ds + {d}, now).events[k]
  {
  }

  lemma AlertOne(l: Ledger, ds: set<DeviceId>, d: DeviceId, now: int)
    requires d !in ds
    ensures Alerted(AlertedAll(l, ds, now), d, now) == AlertedAll(l, ds + {d}, now)
  {
    CountingApart(l, ds, d, now);
    forall k | k in l.events
      ensures Alerted(AlertedAll(l, ds, now), d, now).events[k] == AlertedAll(l, ds + {d}, now).events[k]
    {
      AlertOneEvents(l, ds, d, now, k);
    }
    AlertOneCount(l, ds, d, now);
    assert Alerted(AlertedAll(l, ds, now), d, now).events == AlertedAll(l, ds + {d}, now).events;
  }

  function MoreAlerts(l: Ledger, ds: set<DeviceId>, now: int): map<DeviceId, nat> {
    map d | d in ds && Alarms(l, d, now) :: AlertsOf(l, d) + 1
  }

  lemma AlertOneCount(l: Ledger, ds: set<DeviceId>, d: DeviceId, now: int)
    requires d !in ds && Counting(AlertedAll(l, ds, now).events, d, now) == Counting(l.events, d, now)
    ensures Alerted(AlertedAll(l, ds, now), d, now).alerts == AlertedAll(l, ds + {d}, now).alerts
  {
    var m := AlertedAll(l, ds, now);
    assert AlertsOf(m, d) == AlertsOf(l, d) && (Alarms(m, d, now) <==> Alarms(l, d, now));
    MoreAlertsOne(l, ds, d, now);
    PlusOne(l.alerts, MoreAlerts(l, ds, now), d, AlertsOf(l, d) + 1);
  }

  lemma PlusOne(a: map<DeviceId, nat>, b: map<DeviceId, nat>, d: DeviceId, n: nat)
    ensures (a + b)[d := n] == a + b[d := n]
  {
  }

  lemma MoreAlertsOne(l: Ledger, ds: set<DeviceId>, d: DeviceId, now: int)
    ensures MoreAlerts(l, ds + {d}, now) ==
      if Alarms(l, d, now) then MoreAlerts(l, ds, now)[d := AlertsOf(l, d) + 1] else MoreAlerts(l, ds, now)
  {
  }

  // ----- The busiest node of a device -----

  datatype Load = Load(active: nat, blocked: nat, limit: nat)

  /** a is at least as close to its limit as b. */
  predicate AtLeastAsBusy(a: Load, b: Load) { b.active * a.limit <= a.active * b.limit }

  /** The cross-multiplied comparison compares shares of the limit. */
  lemma BusyIsRatio(a: Load, b: Load)
    requires a.limit > 0 && b.limit > 0
    ensures AtLeastAsBusy(a, b) <==> b.active as real / b.limit as real <= a.active as real / a.limit as real
  {
    var x, y, m, n := a.active as real, b.active as real, a.limit as real, b.limit as real;
    Cross(x, y, m, n);
    assert y * m == (b.active * a.limit) as real && x * n == (a.active * b.limit) as real;
  }

  lemma Cross(x: real, y: real, m: real, n: real)
    requires m > 0.0 && n > 0.0
    ensures y * m <= x * n <==> y / n <= x / m
  {
    assert y == (y / n) * n && x == (x / m) * m;
    var p, q := y / n, x / m;
    assert y * m == p * (n * m) && x * n == q * (n * m);
    if p <= q { assert p * (n * m) <= q * (n * m); }
    if q < p { assert q * (n * m) < p * (n * m); }
  }

  lemma BusyTransitive(a: Load, b: Load, c: Load)
    requires a.limit > 0 && b.limit > 0 && c.limit > 0 && AtLeastAsBusy(a, b) && AtLeastAsBusy(b, c)
    ensures AtLeastAsBusy(a, c)
  {
    Scaled(c.active * b.limit, b.active * c.limit, a.limit);
    Scaled(b.active * a.limit, a.active * b.limit, c.limit);
    assert (c.active * b.limit) * a.limit == b.limit * (c.active * a.limit);
    assert (a.active * b.limit) * c.limit == b.limit * (a.active * c.limit);
    assert (b.active * c.limit) * a.limit == (b.active * a.limit) * c.limit;
    Cancelled(c.active * a.limit, a.active * c.limit, b.limit);
  }

  lemma Scaled(x: nat, y: nat, k: nat)
    requires x <= y
    ensures x * k <= y * k
  {
  }

  lemma Cancelled(x: nat, y: nat, k: nat)
    requires k > 0 && k * x <= k * y
    ensures x <= y
  {
    if x > y { Scaled(y + 1, x, k); }
  }

  /** A load that beats the busiest so far beats, strictly, everything that one was at least as busy as. */
  lemma BeatsAll(seen: seq<Option<Load>>, i: nat, best: Load, entry: Load, k: nat)
    requires k < i <= |seen| && seen[k].Some? && AtLeastAsBusy(best, seen[k].value) && !AtLeastAsBusy(best, entry)
    requires best.limit > 0 && entry.limit > 0 && seen[k].value.limit > 0
    ensures AtLeastAsBusy(entry, seen[k].value) && !AtLeastAsBusy(seen[k].value, entry)
  {
    BusyTransitive(entry, best, seen[k].value);
    if AtLeastAsBusy(seen[k].value, entry) { BusyTransitive(best, seen[k].value, entry); }
  }

  /** Position `at` holds the busiest of the first i, the first of equals. */
  ghost predicate Leads(seen: seq<Option<Load>>, i: nat, at: nat) {
    at < i <= |seen| && seen[at].Some? &&
    (forall k: nat :: k < i && seen[k].Some? ==> AtLeastAsBusy(seen[at].value, seen[k].value)) &&
    (forall k: nat :: k < at && seen[k].Some? ==> !AtLeastAsBusy(seen[k].value, seen[at].value))
  }

  lemma NewLeader(seen: seq<Option<Load>>, i: nat, at: nat)
    requires Leads(seen, i, at) && i < |seen| && seen[i].Some? && !AtLeastAsBusy(seen[at].value, seen[i].value)
    requires forall k: nat :: k <= i && seen[k].Some? ==> seen[k].value.limit > 0
    ensures Leads(seen, i + 1, i)
  {
    forall k: nat | k < i && seen[k].Some?
      ensures AtLeastAsBusy(seen[i].value, seen[k].value) && !AtLeastAsBusy(seen[k].value, seen[i].value)
    {
      BeatsAll(seen, i, seen[at].value, seen[i].value, k);
    }
  }

  /** device_networks for one device: among its limited nodes the one closest to its limit, the first of equals; a device
      seen nowhere has no load against its own limit, and one without a limit has no entry. */
  method Busiest(seen: seq<Option<Load>>, own: Option<nat>) returns (busiest: Option<Load>)
    requires forall k: nat :: k < |seen| && seen[k].Some? ==> seen[k].value.limit > 0
    ensures (exists at: nat :: Leads(seen, |seen|, at) && busiest == seen[at]) ||
            ((forall k :: 0 <= k < |seen| ==> seen[k].None?) &&
             busiest == if own.Some? then Some(Load(0, 0, own.value)) else None)
  {
    busiest := None;
    ghost var at: nat := 0;
    for i := 0 to |seen|
      invariant busiest.None? ==> forall k :: 0 <= k < i ==> seen[k].None?
      invariant busiest.Some? ==> Leads(seen, i, at) && seen[at] == busiest
    {
      if seen[i].Some? {
        var entry := seen[i].value;
        if busiest.None? {
          busiest, at := Some(entry), i;
        } else if entry.active * busiest.value.limit > busiest.value.active * entry.limit {
          NewLeader(seen, i, at);
          busiest, at := Some(entry), i;
        }
      }
    }
    if busiest.None? && own.Some? { busiest := Some(Load(0, 0, own.value)); }
  }
}
