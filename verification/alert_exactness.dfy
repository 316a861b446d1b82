/** When an incident is announced, opened and closed, decided from the observations of the log alone. */
module AlertExactness {
  import opened Tables
  import opened Alerts
  import opened AlertTheorems

  // ----- Readings -----

  /** The thresholds at which a kind fails and at which it is healthy again. */
  lemma Thresholds(r: Reading)
    ensures var o := Classify(r);
      (Ram in o.failing <==> r.ram.Some? && 90.0 <= r.ram.value <= 100.0) &&
      (Ram in o.healthy <==> r.ram.Some? && 0.0 <= r.ram.value < 85.0) &&
      (Cpu in o.failing <==> r.cpu.Some? && 85.0 <= r.cpu.value <= 100.0) &&
      (Cpu in o.healthy <==> r.cpu.Some? && 0.0 <= r.cpu.value < 80.0) &&
      (Disk in o.failing <==> r.disk.Some? && 0.0 <= r.disk.value < 10.0) &&
      (Disk in o.healthy <==> r.disk.Some? && 12.0 <= r.disk.value <= 100.0) &&
      (Cpu in o.failing ==> o.failing[Cpu] == r.cpu.value)
    ensures forall v :: r.load == Some(v) && v.cpus > 0 && v.value >= 0.0 ==>
      (Load in Classify(r).failing <==> v.value / v.cpus as real >= 2.0) &&
      (Load in Classify(r).healthy <==> v.value / v.cpus as real < 1.5)
    ensures forall k :: Service(k) ==>
      (k in Classify(r).failing <==> k in r.services && !r.services[k]) && (k in Classify(r).healthy <==> k in r.services && r.services[k])
  {
  }

  // ----- Announcements -----

  /** Commit i says that the kind fails. */
  ghost predicate Fails(l: Log, k: Kind, i: nat) {
    i < |l.commits| && i < |l.states| && Judge(l.states[i], l.commits[i], k).Fail?
  }

  ghost function FailValue(l: Log, k: Kind, i: nat): real
    requires Fails(l, k, i)
  {
    Judge(l.states[i], l.commits[i], k).value
  }

  /** Commit i emits an unresolved event of the kind. */
  ghost predicate Announces(l: Log, k: Kind, i: nat) {
    i < |l.commits| && i < |l.states| && Emits(l.states[i], l.commits[i], k).Some? && !Emits(l.states[i], l.commits[i], k).value.resolved
  }

  ghost predicate AnnouncesCritical(l: Log, k: Kind, i: nat) {
    Announces(l, k, i) && Emits(l.states[i], l.commits[i], k).value.critical
  }

  /** CPU load of 95 % or more at commit j, and no failing observation below 90 % from there up to commit n. */
  ghost predicate HotFrom(l: Log, k: Kind, j: nat, n: nat) {
    k.Cpu? && Fails(l, k, j) && FailValue(l, k, j) >= 95.0 &&
    forall i: nat :: j < i < n && Fails(l, k, i) ==> FailValue(l, k, i) >= 90.0
  }

  ghost predicate Hot(l: Log, k: Kind, a: nat, n: nat) { exists j: nat :: a <= j < n && HotFrom(l, k, j, n) }

  /** Every announcement of the incident was at least this long before t. */
  ghost predicate AllBefore(l: Log, k: Kind, a: nat, n: nat, wait: nat, t: nat) {
    forall i: nat :: a <= i < n && Announces(l, k, i) ==> l.commits[i].at + wait <= t
  }

  /** The row keeps the time of the incident's last announcement. */
  ghost predicate LastNotified(l: Log, k: Kind, a: nat, n: nat)
    requires n < |l.states| && k in l.states[n].rows
  {
    AllBefore(l, k, a, n, 0, l.states[n].rows[k].notified) &&
    exists j: nat :: a <= j < n && Announces(l, k, j) && l.commits[j].at == l.states[n].rows[k].notified
  }

  ghost predicate LevelKept(l: Log, k: Kind, a: nat, n: nat)
    requires n < |l.states| && k in l.states[n].rows
  {
    (l.states[n].rows[k].critical <==> Hot(l, k, a, n)) &&
    (l.states[n].rows[k].announced <==> exists j: nat :: a <= j < n && AnnouncesCritical(l, k, j))
  }

  lemma OpensNotified(l: Log, k: Kind, a: nat)
    requires CommitAt(l, a) && a < |l.commits| && k !in l.states[a].rows && k in l.states[a + 1].rows
    ensures LastNotified(l, k, a, a + 1)
  {
    assert Announces(l, k, a);
  }

  lemma OpensLevel(l: Log, k: Kind, a: nat)
    requires CommitAt(l, a) && a < |l.commits| && k !in l.states[a].rows && k in l.states[a + 1].rows
    ensures LevelKept(l, k, a, a + 1)
  {
    assert Announces(l, k, a) && Fails(l, k, a);
    if l.states[a + 1].rows[k].critical {
      assert HotFrom(l, k, a, a + 1);
      assert AnnouncesCritical(l, k, a);
    }
  }

  lemma NotifiedAfter(w: Watch, c: Commit, k: Kind)
    requires Admissible(w, c) && Timed(w) && k in w.rows && k in Apply(w, c).rows
    ensures var e := Emits(w, c, k);
      Apply(w, c).rows[k].notified == (if e.Some? && !e.value.resolved then c.at else w.rows[k].notified) &&
      w.rows[k].notified <= Apply(w, c).rows[k].notified
  {
    assert RowTimed(w, k);
    if Judge(w, c, k) != Skip { NeverBack(w, c, k); }
  }

  lemma StepNotified(l: Log, k: Kind, a: nat, n: nat)
    requires CommitAt(l, n) && Timed(l.states[n]) && a < n && k in l.states[n].rows && k in l.states[n + 1].rows
    requires LastNotified(l, k, a, n)
    ensures LastNotified(l, k, a, n + 1)
  {
    NotifiedAfter(l.states[n], l.commits[n], k);
    if Announces(l, k, n) {
      assert l.commits[n].at == l.states[n + 1].rows[k].notified;
    } else {
      var j: nat :| a <= j < n && Announces(l, k, j) && l.commits[j].at == l.states[n].rows[k].notified;
    }
  }

  lemma StepLevel(l: Log, k: Kind, a: nat, n: nat)
    requires CommitAt(l, n) && a < n && k in l.states[n].rows && k in l.states[n + 1].rows && LevelKept(l, k, a, n)
    ensures LevelKept(l, k, a, n + 1)
  {
    StepHot(l, k, a, n);
    assert AnnouncesCritical(l, k, n) || l.states[n + 1].rows[k].announced == l.states[n].rows[k].announced;
  }

  /** CPU load stays critical at 90 % and becomes so at 95 %. */
  lemma HotFurther(l: Log, k: Kind, a: nat, n: nat)
    requires a <= n
    ensures Hot(l, k, a, n + 1) <==>
      if !Fails(l, k, n) then Hot(l, k, a, n)
      else k.Cpu? && (FailValue(l, k, n) >= 95.0 || (Hot(l, k, a, n) && FailValue(l, k, n) >= 90.0))
  {
    if Hot(l, k, a, n + 1) {
      var j: nat :| a <= j < n + 1 && HotFrom(l, k, j, n + 1);
      if j < n { assert HotFrom(l, k, j, n); }
    }
    if Fails(l, k, n) && k.Cpu? && FailValue(l, k, n) >= 95.0 {
      assert HotFrom(l, k, n, n + 1);
    } else if Hot(l, k, a, n) && (Fails(l, k, n) ==> FailValue(l, k, n) >= 90.0) {
      var j: nat :| a <= j < n && HotFrom(l, k, j, n);
      assert HotFrom(l, k, j, n + 1);
    }
  }

  lemma LevelAfter(w: Watch, c: Commit, k: Kind)
    requires k in w.rows && k in Apply(w, c).rows
    ensures Apply(w, c).rows[k].critical <==>
      if Judge(w, c, k).Fail? then k.Cpu? && (Judge(w, c, k).value >= 95.0 || (w.rows[k].critical && Judge(w, c, k).value >= 90.0))
      else w.rows[k].critical
  {
  }

  lemma StepHot(l: Log, k: Kind, a: nat, n: nat)
    requires CommitAt(l, n) && a < n && k in l.states[n].rows && k in l.states[n + 1].rows
    requires l.states[n].rows[k].critical <==> Hot(l, k, a, n)
    ensures l.states[n + 1].rows[k].critical <==> Hot(l, k, a, n + 1)
  {
    HotFurther(l, k, a, n);
    LevelAfter(l.states[n], l.commits[n], k);
  }

  lemma NotifiedAt(l: Log, k: Kind, a: nat, n: nat)
    requires 0 < n && CommitAt(l, n - 1) && Timed(l.states[n - 1]) && a < n - 1 && n < |l.states|
    requires k in l.states[n - 1].rows && k in l.states[n].rows && LastNotified(l, k, a, n - 1)
    ensures LastNotified(l, k, a, n)
  {
    StepNotified(l, k, a, n - 1);
  }

  lemma {:induction false} NotifiedKept(l: Log, k: Kind, a: nat, n: nat)
    requires IsLog(l) && Incident(l, k, a, n)
    ensures LastNotified(l, k, a, n)
    decreases n
  {
    assert CommitAt(l, n - 1);
    if n - 1 == a {
      OpensNotified(l, k, a);
    } else {
      NotifiedKept(l, k, a, n - 1);
      LogInvariant(l, n - 1);
      NotifiedAt(l, k, a, n);
    }
  }

  lemma LevelAt(l: Log, k: Kind, a: nat, n: nat)
    requires 0 < n && CommitAt(l, n - 1) && a < n - 1 && n < |l.states|
    requires k in l.states[n - 1].rows && k in l.states[n].rows && LevelKept(l, k, a, n - 1)
    ensures LevelKept(l, k, a, n)
  {
    StepLevel(l, k, a, n - 1);
  }

  lemma {:induction false} LevelIsKept(l: Log, k: Kind, a: nat, n: nat)
    requires IsLog(l) && Incident(l, k, a, n)
    ensures LevelKept(l, k, a, n)
    decreases n
  {
    assert CommitAt(l, n - 1);
    if n - 1 == a {
      OpensLevel(l, k, a);
    } else {
      LevelIsKept(l, k, a, n - 1);
      LevelAt(l, k, a, n);
    }
  }

  /** The failing commit that opens an incident always announces it. */
  lemma FirstFailureAnnounced(l: Log, k: Kind, n: nat)
    requires IsLog(l) && n < |l.commits| && k !in l.states[n].rows && Fails(l, k, n)
    ensures k in l.states[n + 1].rows
    ensures Emits(l.states[n], l.commits[n], k) == Some(Event(k, false, l.commits[n].at, Hot(l, k, n, n + 1)))
  {
    assert CommitAt(l, n);
    OpensLevel(l, k, n);
  }

  /** Exactly when a failing commit announces an open incident again: when CPU load has become critical and no announcement
      of the incident has said so, or when a repeat interval is set and the last announcement was at least that long ago. */
  lemma AnnouncedExactly(l: Log, k: Kind, a: nat, n: nat)
    requires IsLog(l) && Incident(l, k, a, n) && n < |l.commits| && Fails(l, k, n)
    ensures Announces(l, k, n) <==>
      (Hot(l, k, a, n + 1) && forall i: nat :: a <= i < n ==> !AnnouncesCritical(l, k, i)) ||
      (l.commits[n].repeat > 0 && AllBefore(l, k, a, n, l.commits[n].repeat, l.commits[n].at))
    ensures Announces(l, k, n) ==>
      Emits(l.states[n], l.commits[n], k) == Some(Event(k, false, l.commits[n].at, Hot(l, k, a, n + 1)))
  {
    NotifiedKept(l, k, a, n);
    LevelIsKept(l, k, a, n);
    assert CommitAt(l, n);
    StepHot(l, k, a, n);
  }

  /** No reminder is missed by a late scan. */
  lemma ReminderDue(l: Log, k: Kind, a: nat, n: nat)
    requires IsLog(l) && Incident(l, k, a, n) && n < |l.commits| && Fails(l, k, n) && l.commits[n].repeat > 0
    requires forall i: nat :: a <= i < n && Announces(l, k, i) ==> l.commits[i].at + l.commits[n].repeat <= l.commits[n].at
    ensures Announces(l, k, n)
  {
    AnnouncedExactly(l, k, a, n);
  }

  /** Which failing observations count. A disk or service reading always does; a fast kind's counts unless the other stream
      has overtaken it. */
  lemma FailsExactly(l: Log, k: Kind, n: nat)
    requires IsLog(l) && n < |l.commits| && k != Unreachable
    ensures var w, c := l.states[n], l.commits[n];
      (Fails(l, k, n) <==>
        c.seen.Some? && k in c.seen.value.failing &&
        (FastKind(k) ==> if c.fast then w.full.None? || w.full.value <= c.at else w.fast.None? || w.fast.value < c.at)) &&
      (Fails(l, k, n) ==> FailValue(l, k, n) == c.seen.value.failing[k])
  {
    LogInvariant(l, n);
    assert CommitAt(l, n);
    if l.commits[n].seen.Some? { IgnoredForOther(l.states[n], l.commits[n], k); }
  }

  // ----- Outages -----

  /** Monitoring is not switched off between the commits. */
  ghost predicate Watched(l: Log, a: nat, m: nat) { forall i: nat :: a <= i < m && i < |l.commits| ==> !l.commits[i].off }

  /** In state i the candidate is live, dates from commit a or earlier and is no older than the last failed scan. */
  ghost predicate Candidacy(l: Log, a: nat, i: nat)
    requires a < i <= |l.commits| < |l.states|
  {
    var x := l.states[i].candidate;
    x.Some? && x.value.since <= l.commits[a].at &&
    forall j: nat :: a <= j < i && Says(l, Outage, j).Yes? ==> l.commits[j].at <= x.value.last
  }

  /** A failed scan that is linked to an earlier one continues the candidate. */
  lemma StepCandidacy(l: Log, a: nat, i: nat)
    requires CommitAt(l, i) && |l.commits| < |l.states| && Timed(l.states[i]) && a < i && Candidacy(l, a, i)
    requires !Says(l, Outage, i).No? && !l.commits[i].off && (Says(l, Outage, i).Yes? ==> Linked(l, Outage, a, i))
    ensures Candidacy(l, a, i + 1)
    ensures Says(l, Outage, i).Yes? ==> Continues(l.states[i], l.commits[i].at)
  {
    if Says(l, Outage, i).Yes? {
      var j: nat :| a <= j < i && Says(l, Outage, j).Yes? && Near(l, j, i);
    }
  }

  lemma StartsCandidacy(l: Log, a: nat)
    requires CommitAt(l, a) && |l.commits| < |l.states| && Timed(l.states[a]) && Says(l, Outage, a).Yes? && !l.commits[a].off
    ensures Candidacy(l, a, a + 1)
  {
  }

  lemma CandidacyAt(l: Log, a: nat, i: nat)
    requires 0 < i && CommitAt(l, i - 1) && |l.commits| < |l.states| && Timed(l.states[i - 1]) && a < i - 1 && Candidacy(l, a, i - 1)
    requires !Says(l, Outage, i - 1).No? && !l.commits[i - 1].off && (Says(l, Outage, i - 1).Yes? ==> Linked(l, Outage, a, i - 1))
    ensures Candidacy(l, a, i)
  {
    StepCandidacy(l, a, i - 1);
  }

  lemma {:induction false} ChainIsCandidacy(l: Log, a: nat, b: nat, i: nat)
    requires IsLog(l) && Chain(l, Outage, a, b) && Watched(l, a, b) && a < i <= b
    ensures Candidacy(l, a, i)
    decreases i
  {
    assert CommitAt(l, i - 1);
    LogInvariant(l, i - 1);
    if i - 1 == a {
      StartsCandidacy(l, a);
    } else {
      ChainIsCandidacy(l, a, b, i - 1);
      ChainSays(l, Outage, a, b, i - 1);
      CandidacyAt(l, a, i);
    }
  }

  /** A chain of failed full scans of 30 seconds, with monitoring on. */
  ghost predicate LongOutage(l: Log, a: nat, m: nat) {
    Chain(l, Outage, a, m) && Watched(l, a, m) && l.commits[m].at >= l.commits[a].at + 30
  }

  lemma OutageCompletes(l: Log, a: nat, m: nat)
    requires IsLog(l) && LongOutage(l, a, m)
    ensures Unreachable in l.states[m + 1].rows
  {
    ChainIsCandidacy(l, a, m, m);
    LogInvariant(l, m);
    assert CommitAt(l, m);
    StepCandidacy(l, a, m);
  }

  /** An outage opens at commit m if and only if m ends a chain of failed full scans, at least 30 seconds long and at most 90
      seconds between neighbours, that monitoring was not switched off during. */
  lemma OutageExactly(l: Log, m: nat)
    requires IsLog(l) && m < |l.commits| && Unreachable !in l.states[m].rows
    ensures Unreachable in l.states[m + 1].rows <==> exists a: nat :: LongOutage(l, a, m)
  {
    if Unreachable in l.states[m + 1].rows {
      var a := OutageConfirmed(l, m);
      forall i: nat | a <= i < m
        ensures !l.commits[i].off
      {
        assert CommitAt(l, i) && Open(l, Outage, l.commits[a].at, i + 1);
      }
      assert LongOutage(l, a, m);
    } else if a: nat :| LongOutage(l, a, m) {
      OutageCompletes(l, a, m);
    }
  }

  // ----- Recoveries -----

  /** In state i the incident has been healthy since commit a or earlier, and was last seen no earlier than the last healthy
      observation. */
  ghost predicate Healing(l: Log, k: Kind, a: nat, i: nat)
    requires a < i <= |l.commits| < |l.states|
  {
    k in l.states[i].rows && l.states[i].rows[k].healthy.Some? && l.states[i].rows[k].healthy.value <= l.commits[a].at &&
    forall j: nat :: a <= j < i && Says(l, Recovery(k), j).Yes? ==> l.commits[j].at <= l.states[i].rows[k].last
  }

  lemma StartsHealing(l: Log, k: Kind, a: nat)
    requires CommitAt(l, a) && |l.commits| < |l.states| && Timed(l.states[a]) && Says(l, Recovery(k), a).Yes?
    requires k in l.states[a].rows && k in l.states[a + 1].rows
    ensures Healing(l, k, a, a + 1)
  {
    assert RowTimed(l.states[a], k);
    NeverBack(l.states[a], l.commits[a], k);
  }

  /** A healthy observation linked to an earlier one keeps the streak. */
  lemma KeepsStreak(l: Log, k: Kind, a: nat, i: nat)
    requires CommitAt(l, i) && |l.commits| < |l.states| && a < i && Healing(l, k, a, i)
    requires Says(l, Recovery(k), i).Yes? && Linked(l, Recovery(k), a, i)
    ensures StreakStart(l.states[i].rows[k], l.commits[i].at) == l.states[i].rows[k].healthy
  {
    var j: nat :| a <= j < i && Says(l, Recovery(k), j).Yes? && Near(l, j, i);
  }

  lemma StepHealing(l: Log, k: Kind, a: nat, i: nat)
    requires CommitAt(l, i) && |l.commits| < |l.states| && Timed(l.states[i]) && a < i && Healing(l, k, a, i)
    requires !Says(l, Recovery(k), i).No? && (Says(l, Recovery(k), i).Yes? ==> Linked(l, Recovery(k), a, i))
    requires k in l.states[i + 1].rows
    ensures Healing(l, k, a, i + 1)
  {
    if Says(l, Recovery(k), i).Yes? {
      KeepsStreak(l, k, a, i);
      NeverBack(l.states[i], l.commits[i], k);
    }
  }

  ghost predicate OpenOn(l: Log, k: Kind, a: nat, m: nat) { forall i: nat :: a <= i <= m && i < |l.states| ==> k in l.states[i].rows }

  lemma ChainSays(l: Log, p: Topic, a: nat, b: nat, i: nat)
    requires Chain(l, p, a, b) && a < i <= b
    ensures !Says(l, p, i).No? && (Says(l, p, i).Yes? ==> Linked(l, p, a, i))
  {
  }

  lemma HealingAt(l: Log, k: Kind, a: nat, i: nat)
    requires 0 < i && CommitAt(l, i - 1) && |l.commits| < |l.states| && Timed(l.states[i - 1]) && a < i - 1 && Healing(l, k, a, i - 1)
    requires !Says(l, Recovery(k), i - 1).No? && (Says(l, Recovery(k), i - 1).Yes? ==> Linked(l, Recovery(k), a, i - 1))
    requires k in l.states[i].rows
    ensures Healing(l, k, a, i)
  {
    StepHealing(l, k, a, i - 1);
  }

  lemma {:induction false} ChainIsHealing(l: Log, k: Kind, a: nat, b: nat, i: nat)
    requires IsLog(l) && Chain(l, Recovery(k), a, b) && OpenOn(l, k, a, b) && a < i <= b
    ensures Healing(l, k, a, i)
    decreases i
  {
    assert CommitAt(l, i - 1);
    LogInvariant(l, i - 1);
    if i - 1 == a {
      StartsHealing(l, k, a);
    } else {
      ChainIsHealing(l, k, a, b, i - 1);
      ChainSays(l, Recovery(k), a, b, i - 1);
      HealingAt(l, k, a, i);
    }
  }

  /** A chain of healthy observations of 30 seconds, all within the incident. */
  ghost predicate LongRecovery(l: Log, k: Kind, a: nat, m: nat) {
    Chain(l, Recovery(k), a, m) && OpenOn(l, k, a, m) && l.commits[m].at >= l.commits[a].at + 30
  }

  /** A healthy observation closes the open incident, and reports it if told to, if and only if it ends a chain of healthy
      observations of the kind, at least 30 seconds long and at most 90 seconds between neighbours. */
  lemma ClosedExactly(l: Log, k: Kind, m: nat)
    requires IsLog(l) && m < |l.commits| && k in l.states[m].rows && Says(l, Recovery(k), m).Yes?
    ensures k !in l.states[m + 1].rows <==> exists a: nat :: LongRecovery(l, k, a, m)
    ensures Emits(l.states[m], l.commits[m], k) ==
      if l.commits[m].announce && k !in l.states[m + 1].rows then Some(Event(k, true, l.commits[m].at, false)) else None
  {
    assert CommitAt(l, m);
    EveryKind(k);
    if k !in l.states[m + 1].rows {
      HealthyLongEnough(l, k, m);
    } else if a: nat :| LongRecovery(l, k, a, m) {
      ChainIsHealing(l, k, a, m, m);
      KeepsStreak(l, k, a, m);
    }
  }

  lemma HealthyLongEnough(l: Log, k: Kind, m: nat)
    requires IsLog(l) && m < |l.commits| && k in l.states[m].rows && Says(l, Recovery(k), m).Yes? && k !in l.states[m + 1].rows
    ensures exists a: nat :: LongRecovery(l, k, a, m)
  {
    var w, c := l.states[m], l.commits[m];
    assert CommitAt(l, m);
    LogInvariant(l, m);
    HealthIsTrail(l, k, m);
    NeverBack(w, c, k);
    assert Recovers(w.rows[k], c.at);
    var a := TrailReaches(l, Recovery(k), m, w.rows[k].healthy.value, w.rows[k].last);
    forall i: nat | a <= i <= m
      ensures k in l.states[i].rows
    {
      assert Open(l, Recovery(k), l.commits[a].at, i);
    }
    assert LongRecovery(l, k, a, m);
  }

  /** The full scan finds a service of the node that is not monitored, and nothing wrong with it. */
  predicate DropsService(c: Commit, k: Kind) {
    !c.fast && Service(k) && c.seen.Some? && k !in c.services && k !in c.seen.value.failing
  }

  /** All the ways an incident ends: the node is no longer monitored, the service is not, or the kind recovered. */
  lemma GoneExactly(l: Log, k: Kind, m: nat)
    requires IsLog(l) && m < |l.commits| && k in l.states[m].rows
    ensures k !in l.states[m + 1].rows <==>
      !l.commits[m].monitored || DropsService(l.commits[m], k) ||
      (Says(l, Recovery(k), m).Yes? && exists a: nat :: LongRecovery(l, k, a, m))
  {
    assert CommitAt(l, m);
    EveryKind(k);
    if Says(l, Recovery(k), m).Yes? { ClosedExactly(l, k, m); }
    DropsExactly(l.states[m], l.commits[m], k);
  }

  lemma DropsExactly(w: Watch, c: Commit, k: Kind)
    requires Admissible(w, c)
    ensures Judge(w, c, k).Unmonitored? <==> DropsService(c, k)
  {
  }

  /** last_seen_at is the time of the last scan that said anything known about the kind. */
  lemma SeenExactly(l: Log, k: Kind, m: nat)
    requires IsLog(l) && m < |l.commits| && k in l.states[m + 1].rows
    ensures l.states[m + 1].rows[k].first == if k in l.states[m].rows then l.states[m].rows[k].first else l.commits[m].at
    ensures Judge(l.states[m], l.commits[m], k) != Skip && Judge(l.states[m], l.commits[m], k) != Unknown ==>
      l.states[m + 1].rows[k].last == l.commits[m].at
    ensures Judge(l.states[m], l.commits[m], k) == Skip || Judge(l.states[m], l.commits[m], k) == Unknown ==>
      k in l.states[m].rows && l.states[m + 1].rows[k].last == l.states[m].rows[k].last
  {
    assert CommitAt(l, m);
  }
}
