/** The alert incidents of one node: two scan streams, confirmed outages, confirmed recoveries, reminders.
 *
 * Times are seconds. A commit is the second transaction of one scan, as far as it concerns the node.
 */
module Alerts {
  import opened Tables

  const CHECK_SECONDS := 30
  const GAP_SECONDS := 3 * CHECK_SECONDS

  datatype Kind = Cpu | Ram | Load | Disk | Unreachable | XrayDown | AwgDown

  predicate FastKind(k: Kind) { k.Cpu? || k.Ram? || k.Load? }

  predicate FastObserved(k: Kind) { FastKind(k) || k.Unreachable? }

  predicate Service(k: Kind) { k.XrayDown? || k.AwgDown? }

  // ----- Readings -----

  datatype LoadAverage = LoadAverage(value: real, cpus: nat)
  /** What a node reported; services maps a *_down kind to whether the service runs. */
  datatype Reading = Reading(disk: Option<real>, ram: Option<real>, load: Option<LoadAverage>, cpu: Option<real>,
                             services: map<Kind, bool>)
  /** failing maps a failing kind to its measured value (0 where there is none). */
  datatype Obs = Obs(failing: map<Kind, real>, known: set<Kind>, healthy: set<Kind>)

  predicate Percent(v: Option<real>) { v.Some? && 0.0 <= v.value <= 100.0 }

  predicate Loaded(v: Option<LoadAverage>) { v.Some? && v.value.value >= 0.0 && v.value.cpus > 0 }

  function Ratio(v: LoadAverage): real
    requires v.cpus > 0
  {
    v.value / v.cpus as real
  }

  predicate Known(r: Reading, k: Kind) {
    match k
    case Unreachable => true
    case Disk => Percent(r.disk)
    case Ram => Percent(r.ram)
    case Load => Loaded(r.load)
    case Cpu => Percent(r.cpu)
    case _ => k in r.services
  }

  predicate Failing(r: Reading, k: Kind) {
    Known(r, k) &&
    match k
    case Unreachable => false
    case Disk => r.disk.value < 10.0
    case Ram => r.ram.value >= 90.0
    case Load => Ratio(r.load.value) >= 2.0
    case Cpu => r.cpu.value >= 85.0
    case _ => !r.services[k]
  }

  /** is_healthy_observation. */
  predicate Healthy(r: Reading, k: Kind) {
    Known(r, k) && !Failing(r, k) &&
    match k
    case Disk => r.disk.value >= 12.0
    case Ram => r.ram.value < 85.0
    case Load => Ratio(r.load.value) < 1.5
    case Cpu => r.cpu.value < 80.0
    case _ => true
  }

  function Measured(r: Reading, k: Kind): real {
    match k
    case Disk => if Percent(r.disk) then r.disk.value else 0.0
    case Ram => if Percent(r.ram) then r.ram.value else 0.0
    case Load => if Loaded(r.load) then r.load.value.value else 0.0
    case Cpu => if Percent(r.cpu) then r.cpu.value else 0.0
    case _ => 0.0
  }

  const KINDS: set<Kind> := {Cpu, Ram, Load, Disk, Unreachable, XrayDown, AwgDown}

  /** classify, with the healthy kinds. */
  function Classify(r: Reading): Obs {
    Obs(map k | k in KINDS && Failing(r, k) :: Measured(r, k),
        set k | k in KINDS && Known(r, k), set k | k in KINDS && Healthy(r, k))
  }

  /** What the fast scan keeps of a reading; it never reports an outage. */
  function FastPart(o: Obs): Obs {
    Obs(map k | k in o.failing && FastKind(k) :: o.failing[k],
        set k | k in o.known && FastObserved(k), set k | k in o.healthy && FastObserved(k))
  }

  /** An observation either stream can produce: failing and healthy are known and exclude each other, and a failed
      probe says nothing else. */
  ghost predicate WellFormed(o: Obs) {
    (forall k :: k in o.failing ==> k in o.known) && (forall k :: k in o.healthy ==> k in o.known && k !in o.failing) &&
    (Unreachable in o.failing ==> o.known == {Unreachable})
  }

  /** The fast scan reports no failure of any other kind, in particular no outage. */
  ghost predicate OnlyFast(o: Obs) { forall k :: k in o.failing ==> FastKind(k) }

  lemma ClassifyWellFormed(r: Reading)
    ensures WellFormed(Classify(r)) && WellFormed(FastPart(Classify(r))) && OnlyFast(FastPart(Classify(r)))
  {
  }

  /** An incident cannot flap on noise: between a failing and a healthy reading the measured value moved by at
      least the width of the band in between. */
  lemma HysteresisGap(r: Reading, q: Reading)
    ensures Ram in Classify(r).failing && Ram in Classify(q).healthy ==> r.ram.value - q.ram.value > 5.0
    ensures Cpu in Classify(r).failing && Cpu in Classify(q).healthy ==> r.cpu.value - q.cpu.value > 5.0
    ensures Disk in Classify(r).failing && Disk in Classify(q).healthy ==> q.disk.value - r.disk.value > 2.0
    ensures Load in Classify(r).failing && Load in Classify(q).healthy ==> Ratio(r.load.value) - Ratio(q.load.value) > 0.5
  {
  }

  // ----- The node's rows -----

  /** announced: the critical level has been announced. notified: time of the last unresolved event. */
  datatype Row = Row(first: nat, last: nat, critical: bool, announced: bool, notified: nat, healthy: Option<nat>)
  datatype Candidate = Candidate(since: nat, last: nat)
  datatype Watch = Watch(rows: map<Kind, Row>, reply: Option<nat>, candidate: Option<Candidate>,
                         full: Option<nat>, fast: Option<nat>)
  datatype Event = Event(kind: Kind, resolved: bool, at: nat, critical: bool)

  /** seen is None when the node was skipped. services are the monitored *_down kinds. monitored is false when the
      node is no longer monitorable, which drops its rows. off is no scan: monitoring is switched off. */
  datatype Commit = Commit(fast: bool, at: nat, seen: Option<Obs>, services: set<Kind>, monitored: bool,
                           repeat: nat, announce: bool, off: bool)

  predicate AtLeast(a: Option<nat>, t: nat) { a.Some? && a.value >= t }

  predicate Above(a: Option<nat>, t: nat) { a.Some? && a.value > t }

  /** Another scan of the same stream, no older than this one, has been committed meanwhile. */
  predicate Overtaken(w: Watch, c: Commit) { AtLeast(if c.fast then w.fast else w.full, c.at) }

  /** A scan either stream can produce. */
  ghost predicate Possible(c: Commit) {
    (c.seen.Some? ==> WellFormed(c.seen.value) && c.monitored && (c.fast ==> OnlyFast(c.seen.value))) &&
    (c.off ==> c.seen.None? && c.monitored)
  }

  /** Each stream commits in increasing order. */
  ghost predicate Admissible(w: Watch, c: Commit) { (c.off || !Overtaken(w, c)) && Possible(c) }

  function OtherNewer(w: Watch, c: Commit): bool { if c.fast then Above(w.full, c.at) else AtLeast(w.fast, c.at) }

  predicate RowNewer(w: Watch, k: Kind, t: nat) { k in w.rows && w.rows[k].last > t }

  /** An older observation must not overwrite a newer one of the other stream. */
  predicate Ignored(w: Watch, c: Commit, o: Obs, k: Kind) {
    (FastKind(k) && (OtherNewer(w, c) || RowNewer(w, k, c.at))) ||
    (k.Unreachable? && (Above(w.reply, c.at) || (w.reply == Some(c.at) && k in o.failing) || RowNewer(w, k, c.at)))
  }

  /** The commit settles whether the node is being lost. */
  predicate Decides(w: Watch, c: Commit) {
    c.seen.Some? && !Ignored(w, c, c.seen.value, Unreachable) && (c.fast ==> Unreachable in c.seen.value.known)
  }

  predicate Lost(w: Watch, c: Commit) { Decides(w, c) && Unreachable in c.seen.value.failing }

  predicate Replies(c: Commit) {
    c.seen.Some? && Unreachable in c.seen.value.known && Unreachable !in c.seen.value.failing
  }

  /** The reply is recorded. */
  predicate Heard(w: Watch, c: Commit) { Replies(c) && !Ignored(w, c, c.seen.value, Unreachable) }

  predicate Continues(w: Watch, t: nat) {
    w.candidate.Some? && w.candidate.value.last <= t <= w.candidate.value.last + GAP_SECONDS
  }

  function Since(w: Watch, t: nat): nat { if Continues(w, t) then w.candidate.value.since else t }

  predicate Confirmed(w: Watch, t: nat) { t >= Since(w, t) + CHECK_SECONDS }

  /** What the commit says about one kind. */
  datatype Verdict = Skip | Fail(value: real) | Unmonitored | Unknown | Fine | Between

  function Judge(w: Watch, c: Commit, k: Kind): Verdict {
    if c.seen.None? || Ignored(w, c, c.seen.value, k) then Skip
    else if k in c.seen.value.failing then
      (if k.Unreachable? && !Confirmed(w, c.at) then Unknown else Fail(c.seen.value.failing[k]))
    else if c.fast && !FastObserved(k) then Skip
    else if Service(k) && k !in c.services then Unmonitored
    else if k !in c.seen.value.known then Unknown
    else if k in c.seen.value.healthy then Fine else Between
  }

  predicate Critical(k: Kind, prev: Option<Row>, v: real) {
    k.Cpu? && (v >= 95.0 || (prev.Some? && prev.value.critical && v >= 90.0))
  }

  predicate Escalates(k: Kind, prev: Row, v: real) { k.Cpu? && !prev.announced && Critical(k, Some(prev), v) }

  predicate Repeats(prev: Row, c: Commit) { c.repeat > 0 && c.at >= prev.notified + c.repeat }

  function FailedRow(k: Kind, prev: Option<Row>, c: Commit, v: real): Row {
    var critical := Critical(k, prev, v);
    match prev
    case None => Row(c.at, c.at, critical, critical, c.at, None)
    case Some(p) =>
      Row(p.first, c.at, critical, p.announced || critical,
          if Escalates(k, p, v) || Repeats(p, c) then c.at else p.notified, None)
  }

  /** The last healthy observation is too long ago to count towards recovery. */
  predicate Lapsed(p: Row, t: nat) { t > p.last + GAP_SECONDS }

  function StreakStart(p: Row, t: nat): Option<nat> { if Lapsed(p, t) then None else p.healthy }

  /** Healthy for long enough without a gap. */
  predicate Recovers(p: Row, t: nat) { StreakStart(p, t).Some? && t >= StreakStart(p, t).value + CHECK_SECONDS }

  function RowOf(w: Watch, k: Kind): Option<Row> { if k in w.rows then Some(w.rows[k]) else None }

  /** The kind's row after the commit. */
  function RowAfter(w: Watch, c: Commit, k: Kind): Option<Row> {
    var prev := RowOf(w, k);
    match Judge(w, c, k)
    case Skip => prev
    case Fail(v) => Some(FailedRow(k, prev, c, v))
    case Unmonitored => None
    case Unknown => if prev.None? then None else Some(prev.value.(healthy := None))
    case Fine =>
      if prev.None? || Recovers(prev.value, c.at) then None
      else Some(prev.value.(last := c.at, healthy := if StreakStart(prev.value, c.at).None? then Some(c.at) else prev.value.healthy))
    case Between => if prev.None? then None else Some(prev.value.(last := c.at, healthy := None))
  }

  /** The event the commit emits for the kind, if any. */
  function Emits(w: Watch, c: Commit, k: Kind): Option<Event> {
    var prev := RowOf(w, k);
    match Judge(w, c, k)
    case Fail(v) =>
      if prev.None? || Escalates(k, prev.value, v) || Repeats(prev.value, c)
      then Some(Event(k, false, c.at, Critical(k, prev, v))) else None
    case Fine =>
      if prev.Some? && Recovers(prev.value, c.at) && c.announce then Some(Event(k, true, c.at, false)) else None
    case _ => None
  }

  function CandidateAfter(w: Watch, c: Commit): Option<Candidate> {
    if c.off then None
    else if Lost(w, c) then Some(Candidate(Since(w, c.at), c.at))
    else if Decides(w, c) then None
    else w.candidate
  }

  function RowsAfter(w: Watch, c: Commit): map<Kind, Row> {
    map k | k in KINDS && RowAfter(w, c, k).Some? :: RowAfter(w, c, k).value
  }

  function Apply(w: Watch, c: Commit): Watch {
    Watch(if c.monitored then RowsAfter(w, c) else map[],
          if Heard(w, c) then Some(c.at) else w.reply, CandidateAfter(w, c),
          if c.fast || c.off then w.full else Some(c.at), if c.fast && !c.off then Some(c.at) else w.fast)
  }

  // ----- Runs -----

  datatype Log = Log(states: seq<Watch>, commits: seq<Commit>)

  ghost predicate CommitAt(l: Log, i: nat) {
    i < |l.commits| && i + 1 < |l.states| && Admissible(l.states[i], l.commits[i]) &&
    l.states[i + 1] == Apply(l.states[i], l.commits[i])
  }

  /** Any interleaving of the two streams, from a node without incidents. */
  ghost predicate IsLog(l: Log) {
    |l.states| == |l.commits| + 1 && l.states[0] == Watch(map[], None, None, None, None) &&
    forall i: nat :: i < |l.commits| ==> CommitAt(l, i)
  }

  /** Every time a row or the reply carries was the time of a committed scan of a stream that can observe it. */
  ghost predicate Timed(w: Watch) {
    (forall k :: k in w.rows ==> RowTimed(w, k)) &&
    (w.reply.Some? ==> AtLeast(w.full, w.reply.value) || AtLeast(w.fast, w.reply.value)) &&
    (w.candidate.Some? ==> AtLeast(w.full, w.candidate.value.last) && w.candidate.value.since <= w.candidate.value.last)
  }

  predicate Ordered(k: Kind, r: Row) {
    r.first <= r.notified <= r.last && (r.healthy.Some? ==> r.first <= r.healthy.value <= r.last) &&
    (!k.Cpu? ==> !r.critical && !r.announced)
  }

  predicate Dated(w: Watch, k: Kind, t: nat) { AtLeast(w.full, t) || (FastObserved(k) && AtLeast(w.fast, t)) }

  ghost predicate RowTimed(w: Watch, k: Kind)
    requires k in w.rows
  {
    Ordered(k, w.rows[k]) && Dated(w, k, w.rows[k].last)
  }

  /** A live candidate is newer than the last recorded reply. */
  ghost predicate CandidateFresh(w: Watch) {
    w.candidate.Some? && w.reply.Some? ==> w.reply.value < w.candidate.value.since
  }

  /** No row is overwritten by an older observation. */
  lemma NeverBack(w: Watch, c: Commit, k: Kind)
    requires Admissible(w, c) && Timed(w) && k in w.rows && Judge(w, c, k) != Skip
    ensures w.rows[k].last <= c.at
  {
  }

  lemma StaysDated(w: Watch, c: Commit, k: Kind, t: nat)
    requires Admissible(w, c) && Dated(w, k, t)
    ensures Dated(Apply(w, c), k, t)
  {
  }

  lemma NowDated(w: Watch, c: Commit, k: Kind)
    requires Admissible(w, c) && Judge(w, c, k) != Skip && !Judge(w, c, k).Unmonitored? && !Judge(w, c, k).Unknown?
    ensures Dated(Apply(w, c), k, c.at)
  {
  }

  /** A touched row carries the commit's time, unless the kind was unknown. */
  lemma RowAfterOrdered(w: Watch, c: Commit, k: Kind)
    requires RowAfter(w, c, k).Some? && Judge(w, c, k) != Skip
    requires k in w.rows ==> Ordered(k, w.rows[k]) && w.rows[k].last <= c.at
    ensures Ordered(k, RowAfter(w, c, k).value)
    ensures RowAfter(w, c, k).value.last == if Judge(w, c, k).Unknown? then w.rows[k].last else c.at
  {
  }

  lemma KeepsRowTimed(w: Watch, c: Commit, k: Kind)
    requires Admissible(w, c) && Timed(w) && k in Apply(w, c).rows
    ensures RowTimed(Apply(w, c), k)
  {
    assert k in w.rows ==> RowTimed(w, k);
    if Judge(w, c, k) == Skip {
      StaysDated(w, c, k, w.rows[k].last);
    } else {
      if k in w.rows { NeverBack(w, c, k); }
      RowAfterOrdered(w, c, k);
      if Judge(w, c, k).Unknown? { StaysDated(w, c, k, w.rows[k].last); } else { NowDated(w, c, k); }
    }
  }

  lemma KeepsTimed(w: Watch, c: Commit)
    requires Admissible(w, c) && Timed(w)
    ensures Timed(Apply(w, c))
  {
    forall k | k in Apply(w, c).rows
      ensures RowTimed(Apply(w, c), k)
    {
      KeepsRowTimed(w, c, k);
    }
  }

  lemma KeepsFresh(w: Watch, c: Commit)
    requires Admissible(w, c) && CandidateFresh(w)
    ensures CandidateFresh(Apply(w, c))
  {
  }

  lemma {:induction false} LogInvariant(l: Log, i: nat)
    requires IsLog(l) && i < |l.states|
    ensures Timed(l.states[i]) && CandidateFresh(l.states[i])
  {
    if i == 0 {
    } else {
      LogInvariant(l, i - 1);
      assert CommitAt(l, i - 1);
      KeepsTimed(l.states[i - 1], l.commits[i - 1]);
      KeepsFresh(l.states[i - 1], l.commits[i - 1]);
    }
  }

  /** last_seen_at never moves back while an incident lasts. */
  lemma LastSeenNeverBack(l: Log, i: nat, k: Kind)
    requires IsLog(l) && i < |l.commits| && k in l.states[i].rows && k in l.states[i + 1].rows
    ensures l.states[i].rows[k].last <= l.states[i + 1].rows[k].last && l.states[i].rows[k].first == l.states[i + 1].rows[k].first
  {
    LogInvariant(l, i);
    assert CommitAt(l, i);
    if Judge(l.states[i], l.commits[i], k) != Skip { NeverBack(l.states[i], l.commits[i], k); }
  }

  // ----- The commit transaction -----

  /** What is left of the observation of one kind once older observations and unconfirmed outages are taken out. */
  predicate Admitted(w: Watch, c: Commit, o: Obs, failing: map<Kind, real>, known: set<Kind>, ignored: set<Kind>, k: Kind) {
    var dropped := k in ignored || (k.Unreachable? && k in o.failing && !Confirmed(w, c.at));
    (k in ignored <==> Ignored(w, c, o, k)) && (k in failing <==> k in o.failing && !dropped) &&
    (k in failing ==> failing[k] == o.failing[k]) && (k in known <==> k in o.known && !dropped)
  }

  /** The branches of the commit, in their order. */
  function Branch(c: Commit, o: Obs, failing: map<Kind, real>, known: set<Kind>, ignored: set<Kind>, k: Kind): Verdict {
    if k in failing then Fail(failing[k])
    else if k in ignored || (c.fast && !FastObserved(k)) then Skip
    else if Service(k) && k !in c.services then Unmonitored
    else if k !in known then Unknown
    else if k in o.healthy then Fine else Between
  }

  lemma BranchIsJudge(w: Watch, c: Commit, o: Obs, failing: map<Kind, real>, known: set<Kind>, ignored: set<Kind>, k: Kind)
    requires c.seen == Some(o) && Admitted(w, c, o, failing, known, ignored, k)
    ensures Branch(c, o, failing, known, ignored, k) == Judge(w, c, k)
  {
  }

  /** The kind's row and event are as the commit leaves them. */
  predicate Handled(w: Watch, c: Commit, rows: map<Kind, Row>, sent: map<Kind, Event>, k: Kind) {
    (if k in rows then Some(rows[k]) else None) == RowAfter(w, c, k) && Emitted(w, c, sent, k)
  }

  predicate Emitted(w: Watch, c: Commit, sent: map<Kind, Event>, k: Kind) {
    (if k in sent then Some(sent[k]) else None) == Emits(w, c, k)
  }

  /** Nothing has been done about the kind yet. */
  predicate Untouched(w: Watch, rows: map<Kind, Row>, sent: map<Kind, Event>, k: Kind) {
    (if k in rows then Some(rows[k]) else None) == RowOf(w, k) && k !in sent
  }

  class Monitor {
    var rows: map<Kind, Row>
    var reply: Option<nat>
    var candidate: Option<Candidate>
    var full: Option<nat>
    var fast: Option<nat>

    constructor ()
      ensures View() == Watch(map[], None, None, None, None)
    {
      rows, reply, candidate, full, fast := map[], None, None, None, None;
    }

    ghost function View(): Watch
      reads this
    {
      Watch(rows, reply, candidate, full, fast)
    }

    /** Which kinds an older observation may not touch, and the reply and candidate bookkeeping. Unconfirmed outages
        are taken out of the observation. */
    method Admit(c: Commit, o: Obs) returns (failing: map<Kind, real>, known: set<Kind>, ignored: set<Kind>)
      requires c.seen == Some(o) && Admissible(View(), c) && !c.off
      modifies this`reply, this`candidate
      ensures forall k :: Admitted(old(View()), c, o, failing, known, ignored, k)
      ensures reply == (if Heard(old(View()), c) then Some(c.at) else old(reply)) && candidate == CandidateAfter(old(View()), c)
    {
      ignored, failing, known := {}, o.failing, o.known;
      var newer := if c.fast then Above(full, c.at) else AtLeast(fast, c.at);
      var todo: set<Kind> := {Cpu, Ram, Load};
      while todo != {}
        invariant todo <= {Cpu, Ram, Load} && View() == old(View())
        invariant forall k :: k in ignored <==> FastKind(k) && k !in todo && Ignored(View(), c, o, k)
        invariant failing == map k | k in o.failing && k !in ignored :: o.failing[k]
        invariant known == set k | k in o.known && k !in ignored
        decreases todo
      {
        var k :| k in todo;
        if newer || (k in rows && rows[k].last > c.at) {
          ignored, failing, known := ignored + {k}, failing - {k}, known - {k};
        }
        todo := todo - {k};
      }
      if Above(reply, c.at) || (reply == Some(c.at) && Unreachable in failing) ||
         (Unreachable in rows && rows[Unreachable].last > c.at)
      {
        ignored, failing, known := ignored + {Unreachable}, failing - {Unreachable}, known - {Unreachable};
      } else if Unreachable in known && Unreachable !in failing {
        reply := Some(c.at);
      }
      if Unreachable !in ignored && (!c.fast || Unreachable in known) {
        if Unreachable in failing {
          var continuous := candidate.Some? && candidate.value.last <= c.at && c.at - candidate.value.last <= GAP_SECONDS;
          var since := if continuous then candidate.value.since else c.at;
          candidate := Some(Candidate(since, c.at));
          if c.at < since + CHECK_SECONDS { failing, known := failing - {Unreachable}, known - {Unreachable}; }
        } else {
          candidate := None;
        }
      }
    }

    /** One failing kind. */
    method Record(c: Commit, k: Kind, v: real) returns (e: Option<Event>)
      modifies this`rows
      ensures rows == old(rows)[k := FailedRow(k, if k in old(rows) then Some(old(rows)[k]) else None, c, v)]
      ensures e == if k !in old(rows) || Escalates(k, old(rows)[k], v) || Repeats(old(rows)[k], c)
                   then Some(Event(k, false, c.at, rows[k].critical)) else None
    {
      var critical := k.Cpu? && v >= 95.0;
      if k !in rows {
        rows := rows[k := Row(c.at, c.at, critical, critical, c.at, None)];
        return Some(Event(k, false, c.at, critical));
      }
      var p := rows[k];
      if k.Cpu? && p.critical && v >= 90.0 { critical := true; }
      var emit := k.Cpu? && !p.announced && critical;
      if !emit && c.repeat > 0 { emit := c.at >= p.notified + c.repeat; }
      rows := rows[k := Row(p.first, c.at, critical, p.announced || critical, if emit then c.at else p.notified, None)];
      e := if emit then Some(Event(k, false, c.at, critical)) else None;
    }

    /** One open incident whose kind does not fail. */
    method Review(c: Commit, k: Kind, known: bool, healthy: bool) returns (e: Option<Event>)
      requires k in rows
      modifies this`rows
      ensures !known ==> rows == old(rows)[k := old(rows)[k].(healthy := None)] && e.None?
      ensures known && !healthy ==> rows == old(rows)[k := old(rows)[k].(last := c.at, healthy := None)] && e.None?
      ensures known && healthy && Recovers(old(rows)[k], c.at) ==>
        rows == old(rows) - {k} && e == if c.announce then Some(Event(k, true, c.at, false)) else None
      ensures known && healthy && !Recovers(old(rows)[k], c.at) ==> e.None?
      ensures known && healthy && !Recovers(old(rows)[k], c.at) ==>
        rows == old(rows)[k := old(rows)[k].(last := c.at,
          healthy := if StreakStart(old(rows)[k], c.at).None? then Some(c.at) else old(rows)[k].healthy)]
    {
      var p := rows[k];
      e := None;
      if !known {
        rows := rows[k := p.(healthy := None)];
      } else if healthy {
        var since := if p.healthy.Some? && c.at > p.last + GAP_SECONDS then None else p.healthy;
        if since.None? {
          rows := rows[k := p.(healthy := Some(c.at), last := c.at)];
        } else if c.at >= since.value + CHECK_SECONDS {
          if c.announce { e := Some(Event(k, true, c.at, false)); }
          rows := rows - {k};
        } else {
          rows := rows[k := p.(last := c.at)];
        }
      } else {
        rows := rows[k := p.(last := c.at, healthy := None)];
      }
    }

    /** The first loop: failing kinds. */
    method RecordAll(c: Commit, failing: map<Kind, real>, ghost w: Watch) returns (sent: map<Kind, Event>)
      requires rows == w.rows && forall k :: k in failing ==> Judge(w, c, k) == Fail(failing[k])
      modifies this`rows
      ensures forall k :: if k in failing then Handled(w, c, rows, sent, k) else Untouched(w, rows, sent, k)
    {
      sent := map[];
      var todo := failing.Keys;
      while todo != {}
        invariant todo <= failing.Keys
        invariant forall k :: if k in failing && k !in todo then Handled(w, c, rows, sent, k) else Untouched(w, rows, sent, k)
        decreases todo
      {
        var k :| k in todo;
        assert Untouched(w, rows, sent, k);
        var e := Record(c, k, failing[k]);
        if e.Some? { sent := sent[k := e.value]; }
        assert Handled(w, c, rows, sent, k);
        todo := todo - {k};
      }
    }

    /** One step of the second loop. */
    method ReviewOne(c: Commit, k: Kind, verdict: Verdict, ghost w: Watch) returns (e: Option<Event>)
      requires k in rows && RowOf(w, k) == Some(rows[k]) && verdict == Judge(w, c, k) && !verdict.Fail? && !verdict.Skip?
      modifies this`rows
      ensures forall j :: j != k ==> (j in rows <==> j in old(rows)) && (j in rows ==> rows[j] == old(rows)[j])
      ensures (if k in rows then Some(rows[k]) else None) == RowAfter(w, c, k) && e == Emits(w, c, k)
    {
      e := None;
      if verdict.Unmonitored? { rows := rows - {k}; }
      else { e := Review(c, k, !verdict.Unknown?, verdict.Fine?); }
    }

    /** The second loop: open incidents whose kind does not fail. */
    method ReviewAll(c: Commit, o: Obs, failing: map<Kind, real>, known: set<Kind>, ignored: set<Kind>,
                     before: map<Kind, Event>, ghost w: Watch)
      returns (sent: map<Kind, Event>)
      requires c.seen == Some(o) && forall k :: Admitted(w, c, o, failing, known, ignored, k)
      requires forall k :: if k in failing then Handled(w, c, rows, before, k) else Untouched(w, rows, before, k)
      modifies this`rows
      ensures forall k :: Handled(w, c, rows, sent, k)
    {
      sent := before;
      forall k
        ensures Branch(c, o, failing, known, ignored, k) == Judge(w, c, k)
      {
        BranchIsJudge(w, c, o, failing, known, ignored, k);
      }
      var todo := rows.Keys - failing.Keys;
      while todo != {}
        invariant todo !! failing.Keys && todo <= rows.Keys
        invariant forall k :: if k in todo then Untouched(w, rows, sent, k) else Handled(w, c, rows, sent, k)
        decreases todo
      {
        var k :| k in todo;
        assert Untouched(w, rows, sent, k);
        var verdict := Branch(c, o, failing, known, ignored, k);
        if !verdict.Skip? {
          var e := ReviewOne(c, k, verdict, w);
          if e.Some? { sent := sent[k := e.value]; }
        }
        assert Handled(w, c, rows, sent, k);
        todo := todo - {k};
      }
    }

    /** Switching monitoring off forgets what was about to be confirmed. */
    method SwitchOff(c: Commit)
      requires Possible(c) && c.off
      modifies this`candidate
      ensures View() == Apply(old(View()), c)
    {
      SkippedRows(View(), c);
      candidate := None;
    }

    /** The node's part of a scan commit: events are returned by kind, at most one each. A scan that was overtaken by
        another of its stream changes nothing. */
    method Commit(c: Commit) returns (committed: bool, sent: map<Kind, Event>)
      requires Possible(c) && !c.off
      modifies this
      ensures committed <==> !Overtaken(old(View()), c)
      ensures c.fast ==> (committed <==> old(fast).None? || old(fast).value < c.at)
      ensures !c.fast ==> (committed <==> old(full).None? || old(full).value < c.at)
      ensures !committed ==> View() == old(View()) && sent == map[]
      ensures committed ==> View() == Apply(old(View()), c) && forall k :: Emitted(old(View()), c, sent, k)
    {
      ghost var was := View();
      sent := map[];
      committed := !AtLeast(if c.fast then fast else full, c.at);
      if !committed { return; }
      if c.seen.Some? {
        var failing, known, ignored := Admit(c, c.seen.value);
        forall k | k in failing
          ensures Judge(was, c, k) == Fail(failing[k])
        {
          BranchIsJudge(was, c, c.seen.value, failing, known, ignored, k);
        }
        sent := RecordAll(c, failing, was);
        sent := ReviewAll(c, c.seen.value, failing, known, ignored, sent, was);
        HandledRows(was, c, rows, sent);
        forall k
          ensures Emitted(was, c, sent, k)
        {
          assert Handled(was, c, rows, sent, k);
        }
      } else if !c.monitored {
        rows := map[];
      } else {
        SkippedRows(was, c);
      }
      if c.fast { fast := Some(c.at); } else { full := Some(c.at); }
    }
  }

  lemma EveryKind(k: Kind)
    ensures k in KINDS
  {
  }

  lemma HandledRows(w: Watch, c: Commit, rows: map<Kind, Row>, sent: map<Kind, Event>)
    requires forall k :: Handled(w, c, rows, sent, k)
    ensures rows == RowsAfter(w, c)
  {
    forall k: Kind
      ensures k in rows <==> k in RowsAfter(w, c)
      ensures k in rows ==> rows[k] == RowsAfter(w, c)[k]
    {
      EveryKind(k);
      assert Handled(w, c, rows, sent, k);
    }
  }

  lemma SkippedRows(w: Watch, c: Commit)
    requires c.seen.None?
    ensures RowsAfter(w, c) == w.rows
  {
    forall k: Kind
      ensures k in w.rows <==> k in RowsAfter(w, c)
      ensures k in w.rows ==> w.rows[k] == RowsAfter(w, c)[k]
    {
      EveryKind(k);
    }
  }
}
