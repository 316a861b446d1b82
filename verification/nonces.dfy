/** Signed requests: the nonce table and the time window together let no request through twice. */
module Nonces {
  const SKEW := 60
  const KEEP := 180

  /** A signed request. sound: the header parses, the key is on record and the signature verifies. staff: the key may
      still act (always, for a bot). now is the clock reading of the attempt. */
  datatype Request = Request(key: nat, nonce: nat, stamp: int, now: int, sound: bool, staff: bool)

  type Table = map<(nat, nat), int>

  function Id(q: Request): (nat, nat) { (q.key, q.nonce) }

  predicate InWindow(q: Request) { -SKEW <= q.now - q.stamp <= SKEW }

  function Purged(t: Table, now: int): Table { map x | x in t && t[x] >= now - KEEP :: t[x] }

  /** The nonce is stored: the transaction commits. */
  predicate Stores(t: Table, q: Request) { InWindow(q) && q.sound && Id(q) !in Purged(t, q.now) }

  predicate Accepts(t: Table, q: Request) { Stores(t, q) && q.staff }

  /** A refused replay rolls its purge back. */
  function After(t: Table, q: Request): Table {
    if Stores(t, q) then Purged(t, q.now)[Id(q) := q.now] else t
  }

  // ----- Runs -----

  /** Requests in the order their transactions commit; clock readings need not be in that order. */
  datatype Log = Log(tables: seq<Table>, requests: seq<Request>)

  ghost predicate StepAt(l: Log, i: nat) {
    i < |l.requests| && i + 1 < |l.tables| && l.tables[i + 1] == After(l.tables[i], l.requests[i])
  }

  ghost predicate IsLog(l: Log) {
    |l.tables| == |l.requests| + 1 && l.tables[0] == map[] && forall i: nat :: i < |l.requests| ==> StepAt(l, i)
  }

  predicate StoredAt(l: Log, i: nat)
    requires i < |l.requests| < |l.tables|
  {
    Stores(l.tables[i], l.requests[i])
  }

  /** Request k purges the nonce request i stored. */
  predicate Forgets(l: Log, i: nat, k: nat)
    requires i < |l.requests| && k < |l.requests| < |l.tables|
  {
    StoredAt(l, k) && l.requests[k].now > l.requests[i].now + KEEP
  }

  ghost predicate ForgottenBy(l: Log, i: nat, j: nat)
    requires i < j <= |l.requests| < |l.tables|
  {
    exists k: nat :: i < k < j && Forgets(l, i, k)
  }

  ghost predicate Unrepeated(l: Log, i: nat, j: nat) {
    j <= |l.requests| < |l.tables| && forall k: nat :: i < k < j && StoredAt(l, k) ==> Id(l.requests[k]) != Id(l.requests[i])
  }

  /** A stored nonce is there until some later request purges it. */
  lemma {:induction false} Remembered(l: Log, i: nat, j: nat)
    requires IsLog(l) && i < j < |l.tables| && StoredAt(l, i) && Unrepeated(l, i, j)
    ensures Id(l.requests[i]) in l.tables[j] <==> !ForgottenBy(l, i, j)
    ensures Id(l.requests[i]) in l.tables[j] ==> l.tables[j][Id(l.requests[i])] == l.requests[i].now
    decreases j
  {
    assert StepAt(l, j - 1);
    if i == j - 1 {
    } else {
      Remembered(l, i, j - 1);
      assert Id(l.requests[j - 1]) != Id(l.requests[i]) || !StoredAt(l, j - 1);
      assert ForgottenBy(l, i, j) <==> ForgottenBy(l, i, j - 1) || Forgets(l, i, j - 1);
    }
  }

  /** Exactly when a replay gets through: a request committed in between had a clock more than the keeping time ahead of
      the first acceptance. */
  lemma ReplayDecided(l: Log, i: nat, j: nat)
    requires IsLog(l) && i < j < |l.requests| && StoredAt(l, i) && Unrepeated(l, i, j)
    requires Id(l.requests[j]) == Id(l.requests[i]) && l.requests[j].stamp == l.requests[i].stamp
    requires InWindow(l.requests[j]) && l.requests[j].sound
    ensures StoredAt(l, j) <==> ForgottenBy(l, i, j)
  {
    Remembered(l, i, j);
  }

  /** The clocks of requests committed between i and j are at most a minute ahead of j's. */
  ghost predicate Steady(l: Log, i: nat, j: nat) {
    i < j < |l.requests| && forall k: nat :: i < k < j ==> l.requests[k].now <= l.requests[j].now + 60
  }

  /** Then nothing between them purges the nonce, and no other request can store it again. */
  lemma {:induction false} NotRepeated(l: Log, i: nat, j: nat, n: nat)
    requires IsLog(l) && i < n <= j && Steady(l, i, j) && StoredAt(l, i)
    requires InWindow(l.requests[j]) && l.requests[j].stamp == l.requests[i].stamp
    ensures Unrepeated(l, i, n)
  {
    if i + 1 == n {
    } else {
      NotRepeated(l, i, j, n - 1);
      Remembered(l, i, n - 1);
    }
  }

  /** No signed request is accepted twice. */
  lemma NoReplay(l: Log, i: nat, j: nat)
    requires IsLog(l) && Steady(l, i, j) && Accepts(l.tables[i], l.requests[i])
    requires Id(l.requests[j]) == Id(l.requests[i]) && l.requests[j].stamp == l.requests[i].stamp
    ensures !Accepts(l.tables[j], l.requests[j])
  {
    if Accepts(l.tables[j], l.requests[j]) {
      NotRepeated(l, i, j, j);
      ReplayDecided(l, i, j);
    }
  }

  /** A minute is the most: a clock 61 seconds ahead of the replay's lets it through. */
  lemma SixtyOneIsTooMuch() returns (l: Log)
    ensures IsLog(l) && |l.requests| == 3 && l.requests[1].now == l.requests[2].now + 61
    ensures l.requests[0] == l.requests[2].(now := l.requests[0].now)
    ensures Accepts(l.tables[0], l.requests[0]) && Accepts(l.tables[2], l.requests[2])
  {
    var a, b, c := Request(1, 7, 60, 0, true, true), Request(1, 8, 181, 181, true, true), Request(1, 7, 60, 120, true, true);
    var t0: Table := map[];
    var t1, t2 := map[(1, 7) := 0], map[(1, 8) := 181];
    var t3 := map[(1, 8) := 181, (1, 7) := 120];
    assert Purged(t0, 0) == t0 && Purged(t1, 181) == map[] && Purged(t2, 120) == t2;
    l := Log([t0, t1, t2, t3], [a, b, c]);
    assert StepAt(l, 0) && StepAt(l, 1) && StepAt(l, 2);
  }

  class NonceTable {
    var seen: Table

    constructor ()
      ensures seen == map[]
    {
      seen := map[];
    }

    /** authenticate. */
    method Authenticate(q: Request) returns (accepted: bool)
      modifies this
      ensures accepted == Accepts(old(seen), q) && seen == After(old(seen), q)
      ensures accepted <==> q.sound && q.staff && q.stamp - 60 <= q.now <= q.stamp + 60 &&
                            !((q.key, q.nonce) in old(seen) && old(seen)[(q.key, q.nonce)] >= q.now - 180)
    {
      if q.now - q.stamp > SKEW || q.stamp - q.now > SKEW || !q.sound { return false; }
      var kept := map x | x in seen && seen[x] >= q.now - KEEP :: seen[x];
      if (q.key, q.nonce) in kept { return false; }
      seen := kept[(q.key, q.nonce) := q.now];
      return q.staff;
    }
  }
}
