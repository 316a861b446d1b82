/** What an alert means, over every interleaving of the full and the fast scan stream. */
module AlertTheorems {
  import opened Tables
  import opened Alerts

  // ----- Chains of agreeing observations -----

  datatype Topic = Outage | Recovery(kind: Kind)
  datatype Say = Silent | Yes | No

  /** What commit i says: for an outage, that the probe failed; for a recovery, that the kind is healthy. An ignored or
      older observation says nothing. */
  ghost function Says(l: Log, p: Topic, i: nat): Say
    requires i < |l.commits| && i < |l.states|
  {
    var w, c := l.states[i], l.commits[i];
    match p
    case Outage => if Lost(w, c) then Yes else if Decides(w, c) then No else Silent
    case Recovery(k) => if Judge(w, c, k) == Skip then Silent else if Judge(w, c, k) == Fine then Yes else No
  }

  ghost predicate Near(l: Log, j: nat, i: nat) {
    j < i < |l.commits| && l.commits[j].at <= l.commits[i].at <= l.commits[j].at + 90
  }

  ghost predicate Linked(l: Log, p: Topic, a: nat, i: nat)
    requires i < |l.commits| && |l.commits| < |l.states|
  {
    exists j: nat :: a <= j < i && Says(l, p, j).Yes? && Near(l, j, i)
  }

  /** From commit a to commit b everything that says something says yes, each within the allowed gap of an earlier one. */
  ghost predicate Chain(l: Log, p: Topic, a: nat, b: nat) {
    a <= b < |l.commits| < |l.states| && Says(l, p, a).Yes? && Says(l, p, b).Yes? &&
    (forall i: nat :: a <= i <= b ==> !Says(l, p, i).No?) &&
    (forall i: nat :: a < i <= b && Says(l, p, i).Yes? ==> Linked(l, p, a, i))
  }

  /** In state i, the candidate that dates from since is live; for a recovery, the incident is open. */
  predicate Open(l: Log, p: Topic, since: nat, i: nat) {
    i < |l.states| &&
    match p
    case Outage => l.states[i].candidate.Some? && l.states[i].candidate.value.since == since
    case Recovery(k) => k in l.states[i].rows
  }

  ghost predicate Quiet(l: Log, p: Topic, b: nat, n: nat) {
    n <= |l.commits| < |l.states| && forall i: nat :: b < i < n ==> Says(l, p, i).Silent?
  }

  /** Before state n runs a chain from time since to time last, and nothing was said after it. */
  ghost predicate Trail(l: Log, p: Topic, n: nat, since: nat, last: nat) {
    exists a, b :: IsTrail(l, p, n, since, last, a, b)
  }

  ghost predicate IsTrail(l: Log, p: Topic, n: nat, since: nat, last: nat, a: nat, b: nat) {
    b < n && Chain(l, p, a, b) && l.commits[a].at == since && l.commits[b].at == last && Quiet(l, p, b, n) &&
    (p.Recovery? ==> Open(l, p, since, a)) && forall i: nat :: a < i <= n ==> Open(l, p, since, i)
  }

  lemma ExtendChain(l: Log, p: Topic, a: nat, b: nat, n: nat)
    requires Chain(l, p, a, b) && b < n < |l.commits| && Quiet(l, p, b, n) && Says(l, p, n).Yes? && Near(l, b, n)
    ensures Chain(l, p, a, n)
  {
  }

  lemma TrailStays(l: Log, p: Topic, n: nat, since: nat, last: nat)
    requires n < |l.commits| < |l.states| && Trail(l, p, n, since, last) && Says(l, p, n).Silent?
    requires Open(l, p, since, n + 1)
    ensures Trail(l, p, n + 1, since, last)
  {
    var a, b :| IsTrail(l, p, n, since, last, a, b);
    assert IsTrail(l, p, n + 1, since, last, a, b);
  }

  lemma TrailStarts(l: Log, p: Topic, n: nat)
    requires n < |l.commits| < |l.states| && Says(l, p, n).Yes? && Open(l, p, l.commits[n].at, n + 1)
    requires p.Recovery? ==> Open(l, p, l.commits[n].at, n)
    ensures Trail(l, p, n + 1, l.commits[n].at, l.commits[n].at)
  {
    assert IsTrail(l, p, n + 1, l.commits[n].at, l.commits[n].at, n, n);
  }

  /** A chain that reaches commit n. */
  ghost predicate Reaches(l: Log, p: Topic, n: nat, since: nat, a: nat) {
    Chain(l, p, a, n) && l.commits[a].at == since && (p.Recovery? ==> Open(l, p, since, a)) &&
    forall i: nat :: a < i <= n ==> Open(l, p, since, i)
  }

  lemma TrailReaches(l: Log, p: Topic, n: nat, since: nat, last: nat) returns (a: nat)
    requires n < |l.commits| < |l.states| && Trail(l, p, n, since, last) && Says(l, p, n).Yes?
    requires last <= l.commits[n].at <= last + GAP_SECONDS
    ensures Reaches(l, p, n, since, a)
  {
    var x, b :| IsTrail(l, p, n, since, last, x, b);
    ExtendChain(l, p, x, b, n);
    a := x;
  }

  lemma TrailGrows(l: Log, p: Topic, n: nat, since: nat, last: nat)
    requires n < |l.commits| < |l.states| && Trail(l, p, n, since, last) && Says(l, p, n).Yes?
    requires Open(l, p, since, n + 1)
    requires last <= l.commits[n].at <= last + GAP_SECONDS
    ensures Trail(l, p, n + 1, since, l.commits[n].at)
  {
    var a := TrailReaches(l, p, n, since, last);
    assert IsTrail(l, p, n + 1, since, l.commits[n].at, a, n);
  }

  // ----- Outages -----

  ghost predicate CandidateTrails(l: Log, n: nat)
    requires n < |l.states|
  {
    var cand := l.states[n].candidate;
    cand.Some? ==> Trail(l, Outage, n, cand.value.since, cand.value.last)
  }

  lemma StepCandidate(l: Log, n: nat)
    requires CommitAt(l, n) && |l.commits| < |l.states| && CandidateTrails(l, n)
    ensures CandidateTrails(l, n + 1)
  {
    var w, c := l.states[n], l.commits[n];
    if Lost(w, c) && Continues(w, c.at) {
      TrailGrows(l, Outage, n, w.candidate.value.since, w.candidate.value.last);
    } else if Lost(w, c) {
      TrailStarts(l, Outage, n);
    } else if !Decides(w, c) && w.candidate.Some? && !c.off {
      TrailStays(l, Outage, n, w.candidate.value.since, w.candidate.value.last);
    }
  }

  lemma {:induction false} CandidateIsTrail(l: Log, n: nat)
    requires IsLog(l) && n < |l.states|
    ensures CandidateTrails(l, n)
  {
    if n == 0 {
    } else {
      CandidateIsTrail(l, n - 1);
      assert CommitAt(l, n - 1);
      StepCandidate(l, n - 1);
    }
  }

  lemma {:induction false} RepliesRecorded(l: Log, i: nat, n: nat)
    requires IsLog(l) && i < n < |l.states| && Heard(l.states[i], l.commits[i])
    ensures AtLeast(l.states[n].reply, l.commits[i].at)
    decreases n
  {
    assert CommitAt(l, n - 1);
    if i == n - 1 {
    } else {
      RepliesRecorded(l, i, n - 1);
    }
  }

  /** An outage is announced only after a chain of failed full scans, at least 30 seconds long and at most 90 seconds
      between neighbours, since whose start no reply has been recorded. */
  lemma OutageConfirmed(l: Log, m: nat) returns (a: nat)
    requires IsLog(l) && m < |l.commits| && Unreachable !in l.states[m].rows && Unreachable in l.states[m + 1].rows
    ensures Chain(l, Outage, a, m) && l.commits[m].at >= l.commits[a].at + 30
    ensures forall i: nat :: i <= m && Says(l, Outage, i).Yes? ==> !l.commits[i].fast
    ensures forall i: nat :: i <= m && Heard(l.states[i], l.commits[i]) ==> l.commits[i].at < l.commits[a].at
    ensures l.states[m + 1].candidate == Some(Candidate(l.commits[a].at, l.commits[m].at))
    ensures forall i: nat :: a < i <= m ==> Open(l, Outage, l.commits[a].at, i)
  {
    var w, c := l.states[m], l.commits[m];
    assert CommitAt(l, m);
    assert Lost(w, c) && Confirmed(w, c.at) && Continues(w, c.at);
    CandidateIsTrail(l, m);
    a := TrailReaches(l, Outage, m, w.candidate.value.since, w.candidate.value.last);
    LogInvariant(l, m);
    forall i: nat | i <= m && Heard(l.states[i], l.commits[i])
      ensures l.commits[i].at < l.commits[a].at
    {
      if i < m { RepliesRecorded(l, i, m); }
    }
    forall i: nat | i <= m && Says(l, Outage, i).Yes?
      ensures !l.commits[i].fast
    {
      assert CommitAt(l, i);
    }
  }

  /** The reply is no newer than what is recorded, or than the open outage. */
  ghost predicate Surpassed(w: Watch, t: nat) { AtLeast(w.reply, t) || RowNewer(w, Unreachable, t) }

  lemma StaysSurpassed(w: Watch, c: Commit, t: nat)
    requires Admissible(w, c) && Timed(w) && c.monitored && Surpassed(w, t)
    ensures Surpassed(Apply(w, c), t)
  {
  }

  lemma {:induction false} RepliesSurpassed(l: Log, i: nat, n: nat)
    requires IsLog(l) && i < n < |l.states| && Replies(l.commits[i])
    requires forall j: nat :: i <= j < n ==> l.commits[j].monitored
    ensures Surpassed(l.states[n], l.commits[i].at)
    decreases n
  {
    assert CommitAt(l, n - 1);
    LogInvariant(l, n - 1);
    if i == n - 1 {
    } else {
      RepliesSurpassed(l, i, n - 1);
      StaysSurpassed(l.states[n - 1], l.commits[n - 1], l.commits[i].at);
    }
  }

  /** While the node stays monitored this holds of every committed reply, recorded or ignored as too old. */
  lemma OutageAfterEveryReply(l: Log, m: nat, i: nat) returns (a: nat)
    requires IsLog(l) && m < |l.commits| && Unreachable !in l.states[m].rows && Unreachable in l.states[m + 1].rows
    requires i <= m && Replies(l.commits[i]) && forall j: nat :: i <= j <= m ==> l.commits[j].monitored
    ensures Chain(l, Outage, a, m) && l.commits[m].at >= l.commits[a].at + 30 && l.commits[i].at < l.commits[a].at
  {
    a := OutageConfirmed(l, m);
    assert CommitAt(l, m);
    LogInvariant(l, m + 1);
    RepliesSurpassed(l, i, m);
    LogInvariant(l, m);
  }

  /** An open outage was last seen at the time of a full scan or of a recorded reply. */
  ghost predicate OutageSeen(w: Watch) {
    Unreachable in w.rows ==> AtLeast(w.full, w.rows[Unreachable].last) || AtLeast(w.reply, w.rows[Unreachable].last)
  }

  /** Neither the full stream's time nor the recorded reply goes back. */
  ghost predicate Grows(w: Watch, w': Watch) {
    (forall t :: AtLeast(w.full, t) ==> AtLeast(w'.full, t)) && (forall t :: AtLeast(w.reply, t) ==> AtLeast(w'.reply, t))
  }

  lemma StepGrows(w: Watch, c: Commit)
    requires Admissible(w, c)
    ensures Grows(w, Apply(w, c))
  {
  }

  lemma StepOutageSeen(w: Watch, c: Commit)
    requires Admissible(w, c) && OutageSeen(w)
    ensures OutageSeen(Apply(w, c))
  {
    StepGrows(w, c);
    var v := Judge(w, c, Unreachable);
    assert v.Fine? || v.Between? ==> Heard(w, c);
    assert v.Fail? ==> !c.fast;
  }

  lemma {:induction false} LogGrows(l: Log, i: nat, n: nat)
    requires IsLog(l) && i <= n < |l.states|
    ensures Grows(l.states[i], l.states[n])
    decreases n
  {
    if i == n {
    } else {
      LogGrows(l, i, n - 1);
      assert CommitAt(l, n - 1);
      StepGrows(l.states[n - 1], l.commits[n - 1]);
    }
  }

  lemma {:induction false} LogOutageSeen(l: Log, n: nat)
    requires IsLog(l) && n < |l.states|
    ensures OutageSeen(l.states[n])
  {
    if n == 0 {
    } else {
      LogOutageSeen(l, n - 1);
      assert CommitAt(l, n - 1);
      StepOutageSeen(l.states[n - 1], l.commits[n - 1]);
    }
  }

  /** A reply committed before a failed scan that counts, recorded or not, is dated before it. */
  lemma EarlierReply(l: Log, i: nat, a: nat)
    requires IsLog(l) && i < a < |l.commits| && Replies(l.commits[i]) && Says(l, Outage, a).Yes?
    ensures l.commits[i].at < l.commits[a].at
  {
    assert CommitAt(l, i) && CommitAt(l, a);
    LogOutageSeen(l, i);
    LogGrows(l, i, a);
    LogGrows(l, i + 1, a);
    assert !AtLeast(l.states[a].full, l.commits[a].at) && !AtLeast(l.states[a].reply, l.commits[a].at);
    if !Heard(l.states[i], l.commits[i]) {
      assert Ignored(l.states[i], l.commits[i], l.commits[i].seen.value, Unreachable);
    }
  }

  /** Exactly which replies an outage does not wait for: a committed reply is dated at or after the start of the chain that
      confirms the outage if and only if the candidate of that chain was already live when the reply was committed, with a
      start no later than the reply. Such a reply was ignored as older than the outage then open, and the rows were dropped
      between it and m. */
  lemma OutageAndReplies(l: Log, m: nat, i: nat) returns (a: nat)
    requires IsLog(l) && m < |l.commits| && Unreachable !in l.states[m].rows && Unreachable in l.states[m + 1].rows
    requires i <= m && Replies(l.commits[i])
    ensures Chain(l, Outage, a, m) && l.commits[m].at >= l.commits[a].at + 30 && l.states[m + 1].candidate.Some?
    ensures l.commits[i].at >= l.commits[a].at <==>
            l.states[i].candidate.Some? && l.states[i].candidate.value.since <= l.commits[i].at &&
            l.states[i].candidate.value.since == l.states[m + 1].candidate.value.since
    ensures l.commits[i].at >= l.commits[a].at ==>
            RowNewer(l.states[i], Unreachable, l.commits[i].at) && exists j: nat :: i < j < m && !l.commits[j].monitored
  {
    a := OutageConfirmed(l, m);
    assert CommitAt(l, m);
    if i < a { EarlierReply(l, i, a); }
    else if i > a { assert Open(l, Outage, l.commits[a].at, i); }
    if l.commits[i].at >= l.commits[a].at {
      assert Open(l, Outage, l.commits[a].at, m);
      IgnoredByOutage(l, m, i);
    }
  }

  /** A reply that is not before the candidate live at m was overruled by an outage open then, whose row was dropped since. */
  lemma IgnoredByOutage(l: Log, m: nat, i: nat)
    requires IsLog(l) && i <= m < |l.commits| && Unreachable !in l.states[m].rows && Replies(l.commits[i])
    requires !Heard(l.states[i], l.commits[i]) && l.states[m].candidate.Some?
    requires l.states[m].candidate.value.since <= l.commits[i].at
    ensures RowNewer(l.states[i], Unreachable, l.commits[i].at) && exists j: nat :: i < j < m && !l.commits[j].monitored
  {
    LogInvariant(l, m);
    LogGrows(l, i, m);
    assert CommitAt(l, i);
    assert !AtLeast(l.states[m].reply, l.commits[i].at);
    assert Ignored(l.states[i], l.commits[i], l.commits[i].seen.value, Unreachable);
    if forall j: nat :: i < j < m ==> l.commits[j].monitored { RepliesSurpassed(l, i, m); }
  }

  // ----- Recoveries -----

  ghost predicate HealthTrails(l: Log, k: Kind, n: nat)
    requires n < |l.states|
  {
    k in l.states[n].rows && l.states[n].rows[k].healthy.Some? ==>
      Trail(l, Recovery(k), n, l.states[n].rows[k].healthy.value, l.states[n].rows[k].last)
  }

  lemma HealthGrows(l: Log, k: Kind, n: nat)
    requires CommitAt(l, n) && |l.commits| < |l.states| && HealthTrails(l, k, n) && Timed(l.states[n])
    requires Judge(l.states[n], l.commits[n], k) == Fine && k in l.states[n].rows && k in l.states[n + 1].rows
    ensures HealthTrails(l, k, n + 1)
  {
    var w, c := l.states[n], l.commits[n];
    NeverBack(w, c, k);
    if StreakStart(w.rows[k], c.at).None? { TrailStarts(l, Recovery(k), n); }
    else { TrailGrows(l, Recovery(k), n, w.rows[k].healthy.value, w.rows[k].last); }
  }

  lemma HealthyOnlyWhenFine(w: Watch, c: Commit, k: Kind)
    requires Admissible(w, c) && k in Apply(w, c).rows && Apply(w, c).rows[k].healthy.Some?
    ensures k in w.rows && (Judge(w, c, k) == Fine || (Judge(w, c, k) == Skip && Apply(w, c).rows[k] == w.rows[k]))
  {
  }

  lemma StepHealth(l: Log, k: Kind, n: nat)
    requires CommitAt(l, n) && |l.commits| < |l.states| && HealthTrails(l, k, n) && Timed(l.states[n])
    ensures HealthTrails(l, k, n + 1)
  {
    var w, c := l.states[n], l.commits[n];
    if k in l.states[n + 1].rows && l.states[n + 1].rows[k].healthy.Some? {
      HealthyOnlyWhenFine(w, c, k);
      if Judge(w, c, k) == Fine { HealthGrows(l, k, n); }
      else { TrailStays(l, Recovery(k), n, w.rows[k].healthy.value, w.rows[k].last); }
    }
  }

  lemma {:induction false} HealthIsTrail(l: Log, k: Kind, n: nat)
    requires IsLog(l) && n < |l.states|
    ensures HealthTrails(l, k, n)
  {
    if n == 0 {
    } else {
      HealthIsTrail(l, k, n - 1);
      LogInvariant(l, n - 1);
      assert CommitAt(l, n - 1);
      StepHealth(l, k, n - 1);
    }
  }

  /** Commit o opens an incident that is still open in state n. */
  ghost predicate Incident(l: Log, k: Kind, o: nat, n: nat) {
    o < n < |l.states| && k !in l.states[o].rows && forall i: nat :: o < i <= n ==> k in l.states[i].rows
  }

  lemma {:induction false} OpenedOnce(l: Log, k: Kind, n: nat) returns (o: nat)
    requires IsLog(l) && n < |l.states| && k in l.states[n].rows
    ensures Incident(l, k, o, n)
  {
    if k in l.states[n - 1].rows { o := OpenedOnce(l, k, n - 1); } else { o := n - 1; }
  }

  lemma OpeningAnnounced(l: Log, k: Kind, o: nat)
    requires IsLog(l) && o < |l.commits| && k !in l.states[o].rows && k in l.states[o + 1].rows
    ensures Judge(l.states[o], l.commits[o], k).Fail?
    ensures Emits(l.states[o], l.commits[o], k).Some? && !Emits(l.states[o], l.commits[o], k).value.resolved
  {
    assert CommitAt(l, o);
  }

  /** The commit carries an observation of the kind, failing, unknown or in between, that is not healthy. */
  predicate Unhealthy(c: Commit, k: Kind) { Observes(c, k) && k !in c.seen.value.healthy }

  predicate Observes(c: Commit, k: Kind) { c.seen.Some? && (c.fast ==> FastObserved(k)) }

  /** A scan of the other stream, dated no earlier, has been committed. */
  predicate CaughtUp(w: Watch, c: Commit) { AtLeast(if c.fast then w.full else w.fast, c.at) }

  /** An observation is ignored only in favour of the other stream; for the fast kinds, exactly then. */
  lemma IgnoredForOther(w: Watch, c: Commit, k: Kind)
    requires Admissible(w, c) && Timed(w) && c.seen.Some?
    ensures Ignored(w, c, c.seen.value, k) ==> FastObserved(k) && CaughtUp(w, c)
    ensures FastKind(k) ==> (Ignored(w, c, c.seen.value, k) <==> OtherNewer(w, c))
  {
    if k in w.rows { assert RowTimed(w, k); }
  }

  /** A reply or an outage dated later, or a reply dated the same as a failed probe, is already on record. */
  predicate Overruled(w: Watch, c: Commit) {
    Above(w.reply, c.at) || RowNewer(w, Unreachable, c.at) ||
    (w.reply == Some(c.at) && c.seen.Some? && Unreachable in c.seen.value.failing)
  }

  /** What an observation committed inside a chain of healthy ones can be: it counts if and only if it is not ignored, and
      if it is unhealthy it was ignored. */
  lemma ObservedInChain(l: Log, k: Kind, a: nat, m: nat, i: nat)
    requires IsLog(l) && Chain(l, Recovery(k), a, m) && a <= i <= m && Observes(l.commits[i], k)
    ensures Says(l, Recovery(k), i).Yes? <==> !Ignored(l.states[i], l.commits[i], l.commits[i].seen.value, k)
    ensures Unhealthy(l.commits[i], k) ==> Ignored(l.states[i], l.commits[i], l.commits[i].seen.value, k)
  {
    assert !Says(l, Recovery(k), i).No?;
  }

  lemma UnhealthyIsOverruled(l: Log, k: Kind, a: nat, m: nat, i: nat)
    requires IsLog(l) && Chain(l, Recovery(k), a, m) && a <= i <= m && Unhealthy(l.commits[i], k)
    ensures FastObserved(k) && CaughtUp(l.states[i], l.commits[i])
  {
    ObservedInChain(l, k, a, m, i);
    LogInvariant(l, i);
    assert CommitAt(l, i);
    IgnoredForOther(l.states[i], l.commits[i], k);
  }

  lemma AllOverruled(l: Log, k: Kind, a: nat, m: nat)
    requires IsLog(l) && Chain(l, Recovery(k), a, m)
    ensures forall i: nat :: a <= i <= m && Unhealthy(l.commits[i], k) ==> FastObserved(k) && CaughtUp(l.states[i], l.commits[i])
  {
    forall i: nat | a <= i <= m && Unhealthy(l.commits[i], k)
      ensures FastObserved(k) && CaughtUp(l.states[i], l.commits[i])
    {
      UnhealthyIsOverruled(l, k, a, m, i);
    }
  }

  /** Exactly which observations a chain of healthy ones contains. Of a kind only the full scan observes, every one is
      healthy. Of a fast kind, one counts, and is then healthy, if and only if no scan of the other stream had overtaken
      it. Of reachability, one counts if and only if nothing dated later was on record. An unhealthy one was committed only
      after a scan of the other stream had caught up with it. */
  lemma RecoveryExactly(l: Log, k: Kind, a: nat, m: nat)
    requires IsLog(l) && Chain(l, Recovery(k), a, m)
    ensures !FastObserved(k) ==> forall i: nat :: a <= i <= m ==> !Unhealthy(l.commits[i], k)
    ensures FastKind(k) ==> forall i: nat :: a <= i <= m && Observes(l.commits[i], k) ==>
              (Says(l, Recovery(k), i).Yes? <==> !OtherNewer(l.states[i], l.commits[i]))
    ensures k.Unreachable? ==> forall i: nat :: a <= i <= m && Observes(l.commits[i], k) ==>
              (Says(l, Recovery(k), i).Yes? <==> !Overruled(l.states[i], l.commits[i]))
    ensures forall i: nat :: a <= i <= m && Unhealthy(l.commits[i], k) ==> CaughtUp(l.states[i], l.commits[i])
  {
    AllOverruled(l, k, a, m);
    forall i: nat | a <= i <= m && Observes(l.commits[i], k) && k.Unreachable?
      ensures Says(l, Recovery(k), i).Yes? <==> !Overruled(l.states[i], l.commits[i])
    {
      ObservedInChain(l, k, a, m, i);
    }
    forall i: nat | a <= i <= m && Observes(l.commits[i], k) && FastKind(k)
      ensures Says(l, Recovery(k), i).Yes? <==> !OtherNewer(l.states[i], l.commits[i])
    {
      ObservedInChain(l, k, a, m, i);
      LogInvariant(l, i);
      assert CommitAt(l, i);
      IgnoredForOther(l.states[i], l.commits[i], k);
    }
  }

  lemma RecoveryChain(l: Log, k: Kind, m: nat) returns (o: nat, a: nat)
    requires IsLog(l) && m < |l.commits|
    requires Emits(l.states[m], l.commits[m], k).Some? && Emits(l.states[m], l.commits[m], k).value.resolved
    ensures Incident(l, k, o, m) && k !in l.states[m + 1].rows && o < a
    ensures Emits(l.states[o], l.commits[o], k).Some? && !Emits(l.states[o], l.commits[o], k).value.resolved
    ensures Chain(l, Recovery(k), a, m) && l.commits[m].at >= l.commits[a].at + 30
  {
    var w, c := l.states[m], l.commits[m];
    assert CommitAt(l, m);
    LogInvariant(l, m);
    HealthIsTrail(l, k, m);
    NeverBack(w, c, k);
    a := TrailReaches(l, Recovery(k), m, w.rows[k].healthy.value, w.rows[k].last);
    o := OpenedOnce(l, k, m);
    OpeningAnnounced(l, k, o);
    assert Open(l, Recovery(k), l.commits[a].at, o) ==> false;
  }

  /** A resolved event closes an incident that was opened and announced, after a chain of healthy observations of that
      kind, at least 30 seconds long and at most 90 seconds between neighbours, all within the incident. An unhealthy
      observation committed inside the chain was ignored in favour of the other stream. */
  lemma RecoveryConfirmed(l: Log, k: Kind, m: nat) returns (o: nat, a: nat)
    requires IsLog(l) && m < |l.commits|
    requires Emits(l.states[m], l.commits[m], k).Some? && Emits(l.states[m], l.commits[m], k).value.resolved
    ensures Incident(l, k, o, m) && k !in l.states[m + 1].rows && o < a
    ensures Emits(l.states[o], l.commits[o], k).Some? && !Emits(l.states[o], l.commits[o], k).value.resolved
    ensures Chain(l, Recovery(k), a, m) && l.commits[m].at >= l.commits[a].at + 30
    ensures forall i: nat :: a <= i <= m && Unhealthy(l.commits[i], k) ==> FastObserved(k) && CaughtUp(l.states[i], l.commits[i])
  {
    o, a := RecoveryChain(l, k, m);
    AllOverruled(l, k, a, m);
  }

  // ----- Reminders -----

  /** Unresolved events of the kind from commit a up to state n. */
  ghost function Count(l: Log, k: Kind, a: nat, n: nat): nat
    requires a <= n <= |l.commits| < |l.states|
    decreases n
  {
    if a == n then 0
    else
      var e := Emits(l.states[n - 1], l.commits[n - 1], k);
      Count(l, k, a, n - 1) + if e.Some? && !e.value.resolved then 1 else 0
  }

  ghost predicate FixedRepeat(l: Log, a: nat, n: nat, every: nat) {
    n <= |l.commits| && forall i: nat :: a <= i < n ==> l.commits[i].repeat == every
  }

  function Extra(r: Row): nat { if r.announced then 1 else 0 }

  /** Each reminder moved `notified` on by the interval; the opening and one escalation come on top. */
  predicate Paid(r: Row, count: nat, every: nat) {
    count <= 1 + Extra(r) || (every > 0 && (count - 1 - Extra(r)) * every <= r.notified - r.first)
  }

  lemma OneMore(n: int, every: nat, x: int, y: int)
    requires every > 0 && n * every <= x && x + every <= y
    ensures (n + 1) * every <= y
  {
  }

  lemma StepPaid(w: Watch, c: Commit, k: Kind, count: nat)
    requires Admissible(w, c) && Timed(w) && k in w.rows && k in Apply(w, c).rows && Paid(w.rows[k], count, c.repeat)
    ensures var e := Emits(w, c, k);
      Paid(Apply(w, c).rows[k], count + (if e.Some? && !e.value.resolved then 1 else 0), c.repeat)
  {
    assert RowTimed(w, k);
    if Judge(w, c, k) != Skip { NeverBack(w, c, k); }
    var r, r' := w.rows[k], Apply(w, c).rows[k];
    if Judge(w, c, k).Fail? {
      if Escalates(k, r, Judge(w, c, k).value) {
        assert Extra(r') == Extra(r) + 1 && r'.notified >= r.notified;
      } else {
        assert Extra(r') == Extra(r);
        if Repeats(r, c) { RepeatPaid(r, r', count, c); }
      }
    }
  }

  lemma RepeatPaid(r: Row, r': Row, count: nat, c: Commit)
    requires r.first <= r.notified && Paid(r, count, c.repeat) && Repeats(r, c)
    requires r'.first == r.first && r'.notified == c.at && Extra(r') == Extra(r)
    ensures Paid(r', count + 1, c.repeat)
  {
    if count <= 1 + Extra(r) {
      if count == 1 + Extra(r) { OneMore(0, c.repeat, 0, r'.notified - r'.first); }
    } else {
      OneMore(count - 1 - Extra(r), c.repeat, r.notified - r.first, r'.notified - r'.first);
    }
  }

  lemma CountOne(l: Log, k: Kind, a: nat)
    requires a < |l.commits| < |l.states|
    ensures Count(l, k, a, a + 1) <= 1
  {
  }

  lemma PaidAt(l: Log, k: Kind, a: nat, n: nat, every: nat)
    requires 0 < n < |l.states| && CommitAt(l, n - 1) && |l.commits| < |l.states| && a < n && l.commits[n - 1].repeat == every
    requires Timed(l.states[n - 1]) && k in l.states[n - 1].rows && k in l.states[n].rows
    requires Paid(l.states[n - 1].rows[k], Count(l, k, a, n - 1), every)
    ensures Paid(l.states[n].rows[k], Count(l, k, a, n), every)
  {
    StepPaid(l.states[n - 1], l.commits[n - 1], k, Count(l, k, a, n - 1));
  }

  lemma {:induction false} IncidentPaid(l: Log, k: Kind, a: nat, n: nat, every: nat)
    requires IsLog(l) && Incident(l, k, a, n) && FixedRepeat(l, a, n, every)
    ensures Paid(l.states[n].rows[k], Count(l, k, a, n), every)
    decreases n
  {
    if n - 1 == a {
      CountOne(l, k, a);
    } else {
      IncidentPaid(l, k, a, n - 1, every);
      LogInvariant(l, n - 1);
      PaidAt(l, k, a, n, every);
    }
  }

  /** An incident that has lasted D with a fixed repeat interval R was announced at most 2 + floor(D / R) times, and at
      most twice when repeats are off. */
  lemma ReminderBound(l: Log, k: Kind, a: nat, n: nat, every: nat)
    requires IsLog(l) && Incident(l, k, a, n) && FixedRepeat(l, a, n, every)
    ensures Count(l, k, a, n) <= 2 ||
      (every > 0 && Count(l, k, a, n) <= 2 + (l.states[n].rows[k].last - l.states[n].rows[k].first) / every)
  {
    IncidentPaid(l, k, a, n, every);
    LogInvariant(l, n);
    assert RowTimed(l.states[n], k);
    PaidBound(k, l.states[n].rows[k], Count(l, k, a, n), every);
  }

  lemma PaidBound(k: Kind, r: Row, count: nat, every: nat)
    requires Ordered(k, r) && Paid(r, count, every)
    ensures count <= 2 || (every > 0 && count <= 2 + (r.last - r.first) / every)
  {
    if count > 2 {
      Scales(count - 2, count - 1 - Extra(r), every);
      Quotient(count - 2, every, r.last - r.first);
    }
  }

  lemma Scales(a: int, b: int, every: nat)
    requires a <= b
    ensures a * every <= b * every
  {
  }

  lemma Quotient(q: nat, every: nat, d: nat)
    requires every > 0 && q * every <= d
    ensures q <= d / every
  {
    var m := d / every;
    assert d < (m + 1) * every;
    if q >= m + 1 { Scales(m + 1, q, every); }
  }

  ghost predicate EscalatedAt(l: Log, k: Kind, i: nat)
    requires i < |l.commits| < |l.states|
  {
    k in l.states[i].rows && Judge(l.states[i], l.commits[i], k).Fail? &&
    Escalates(k, l.states[i].rows[k], Judge(l.states[i], l.commits[i], k).value)
  }

  lemma {:induction false} AnnouncedSticks(l: Log, k: Kind, i: nat, j: nat)
    requires IsLog(l) && i <= j < |l.states| && forall m: nat :: i <= m <= j ==> k in l.states[m].rows
    requires l.states[i].rows[k].announced
    ensures l.states[j].rows[k].announced
    decreases j
  {
    if i == j {
    } else {
      AnnouncedSticks(l, k, i, j - 1);
      assert CommitAt(l, j - 1);
    }
  }

  /** The escalation to critical is announced at most once per incident. */
  lemma EscalatedOnce(l: Log, k: Kind, a: nat, n: nat, i: nat, j: nat)
    requires IsLog(l) && Incident(l, k, a, n) && a < i < j < n && EscalatedAt(l, k, i)
    ensures !EscalatedAt(l, k, j)
  {
    assert CommitAt(l, i);
    AnnouncedSticks(l, k, i + 1, j);
  }

  // ----- Why a failing observation can be committed inside a recovery -----

  const RAM_FAILS := Obs(map[Ram := 95.0], {Ram, Unreachable}, {Unreachable})
  const RAM_FINE := Obs(map[], {Ram, Unreachable}, {Ram, Unreachable})

  function FastScan(t: nat, seen: Option<Obs>): Commit { Commit(true, t, seen, {}, true, 0, true, false) }

  function FullRam(t: nat): Commit { Commit(false, t, Some(RAM_FAILS), {}, true, 0, true, false) }

  /** What the steps below need to know of a state. */
  ghost predicate RamIs(w: Watch, last: nat, healthy: Option<nat>, full: nat, fast: Option<nat>) {
    Ram in w.rows && w.rows[Ram].last == last && w.rows[Ram].healthy == healthy && w.full == Some(full) && w.fast == fast
  }

  lemma RamOpens(w: Watch)
    requires w == Watch(map[], None, None, None, None)
    ensures Admissible(w, FullRam(0)) && RamIs(Apply(w, FullRam(0)), 0, None, 0, None)
  {
  }

  lemma RamHeals(w: Watch)
    requires RamIs(w, 0, None, 0, None)
    ensures Admissible(w, FastScan(10, Some(RAM_FINE))) && Judge(w, FastScan(10, Some(RAM_FINE)), Ram) == Fine
    ensures RamIs(Apply(w, FastScan(10, Some(RAM_FINE))), 10, Some(10), 0, Some(10))
  {
  }

  lemma NodeSkipped(w: Watch)
    requires RamIs(w, 10, Some(10), 0, Some(10))
    ensures Admissible(w, FastScan(40, None)) && Judge(w, FastScan(40, None), Ram) == Skip
    ensures RamIs(Apply(w, FastScan(40, None)), 10, Some(10), 0, Some(40))
  {
  }

  lemma RamIgnored(w: Watch)
    requires RamIs(w, 10, Some(10), 0, Some(40))
    ensures Admissible(w, FullRam(35)) && Judge(w, FullRam(35), Ram) == Skip
    ensures RamIs(Apply(w, FullRam(35)), 10, Some(10), 35, Some(40))
  {
  }

  lemma RamResolves(w: Watch)
    requires RamIs(w, 10, Some(10), 35, Some(40))
    ensures var c := FastScan(70, Some(RAM_FINE));
      Admissible(w, c) && Judge(w, c, Ram) == Fine && Emits(w, c, Ram) == Some(Event(Ram, true, 70, false))
  {
  }

  lemma TwoRamScans() returns (l: Log)
    ensures IsLog(l) && l.commits == [FullRam(0), FastScan(10, Some(RAM_FINE))]
    ensures RamIs(l.states[1], 0, None, 0, None) && RamIs(l.states[2], 10, Some(10), 0, Some(10))
  {
    l := Log([Watch(map[], None, None, None, None)], []);
    RamOpens(l.states[0]);
    OneMoreCommit(l, FullRam(0));
    l := Then(l, FullRam(0));
    RamHeals(l.states[1]);
    OneMoreCommit(l, FastScan(10, Some(RAM_FINE)));
    l := Then(l, FastScan(10, Some(RAM_FINE)));
  }

  lemma FourRamScans() returns (l: Log)
    ensures IsLog(l) && l.commits == [FullRam(0), FastScan(10, Some(RAM_FINE)), FastScan(40, None), FullRam(35)]
    ensures RamIs(l.states[1], 0, None, 0, None) && RamIs(l.states[2], 10, Some(10), 0, Some(10))
    ensures RamIs(l.states[3], 10, Some(10), 0, Some(40)) && RamIs(l.states[4], 10, Some(10), 35, Some(40))
  {
    l := TwoRamScans();
    NodeSkipped(l.states[2]);
    OneMoreCommit(l, FastScan(40, None));
    l := Then(l, FastScan(40, None));
    RamIgnored(l.states[3]);
    OneMoreCommit(l, FullRam(35));
    l := Then(l, FullRam(35));
  }

  /** A RAM incident is resolved at 70 by healthy readings of 10 and 70, although a failing reading of 35 was committed in
      between: a fast scan of 40 that skipped the node had overtaken it. */
  lemma IgnoredFailure() returns (l: Log)
    ensures IsLog(l) && |l.commits| == 5 && Chain(l, Recovery(Ram), 1, 4)
    ensures Emits(l.states[4], l.commits[4], Ram).Some? && Emits(l.states[4], l.commits[4], Ram).value.resolved
    ensures Unhealthy(l.commits[3], Ram) && Ram in l.commits[3].seen.value.failing && l.commits[3].at == 35
  {
    l := FourRamScans();
    RamResolves(l.states[4]);
    OneMoreCommit(l, FastScan(70, Some(RAM_FINE)));
    l := Then(l, FastScan(70, Some(RAM_FINE)));
    RamHeals(l.states[1]);
    NodeSkipped(l.states[2]);
    RamIgnored(l.states[3]);
    RamChain(l);
  }

  lemma RamChain(l: Log)
    requires |l.commits| == 5 && |l.states| == 6 && l.commits[1].at == 10 && l.commits[4].at == 70
    requires Says(l, Recovery(Ram), 1).Yes? && Says(l, Recovery(Ram), 2).Silent? && Says(l, Recovery(Ram), 3).Silent?
    requires Says(l, Recovery(Ram), 4).Yes?
    ensures Chain(l, Recovery(Ram), 1, 4)
  {
    assert Near(l, 1, 4);
    forall i: nat | 1 < i <= 4 && Says(l, Recovery(Ram), i).Yes?
      ensures Linked(l, Recovery(Ram), 1, i)
    {
      assert i == 2 || i == 3 || i == 4;
    }
  }

  // ----- Why the node has to stay monitored -----

  const NO_ANSWER := Obs(map[Unreachable := 0.0], {Unreachable}, {})
  const ANSWER := Obs(map[], {Unreachable}, {Unreachable})

  function FullScan(t: nat, seen: Option<Obs>): Commit { Commit(false, t, seen, {}, seen.Some?, 0, true, false) }

  lemma FailedScan(w: Watch, c: Commit, t: nat)
    requires c == FullScan(t, Some(NO_ANSWER)) && w.reply.None? && Unreachable !in w.rows
    ensures var w' := Apply(w, c);
      w'.candidate == Some(Candidate(Since(w, t), t)) && w'.reply.None? && w'.full == Some(t) && w'.fast == w.fast &&
      (Unreachable in w'.rows <==> Confirmed(w, t)) && (Confirmed(w, t) ==> w'.rows[Unreachable].last == t)
  {
  }

  function Then(l: Log, c: Commit): Log
    requires |l.states| > 0
  {
    Log(l.states + [Apply(l.states[|l.states| - 1], c)], l.commits + [c])
  }

  lemma OneMoreCommit(l: Log, c: Commit)
    requires IsLog(l) && Admissible(l.states[|l.commits|], c)
    ensures IsLog(Then(l, c))
  {
    forall i: nat | i < |l.commits| + 1
      ensures CommitAt(Then(l, c), i)
    {
      if i < |l.commits| { assert CommitAt(l, i); }
    }
  }

  lemma TwoFailures(l: Log)
    requires l == Then(Then(Log([Watch(map[], None, None, None, None)], []), FullScan(0, Some(NO_ANSWER))), FullScan(31, Some(NO_ANSWER)))
    ensures IsLog(l) && l.states[2].candidate == Some(Candidate(0, 31)) && l.states[2].reply.None? && l.states[2].fast.None?
    ensures l.states[2].full == Some(31) && Unreachable in l.states[2].rows && l.states[2].rows[Unreachable].last == 31
  {
  }

  lemma LateAnswer(w: Watch, c: Commit)
    requires w.candidate.Some? && w.reply.None? && RowNewer(w, Unreachable, 20) && w.fast.None?
    requires c == Commit(true, 20, Some(ANSWER), {}, true, 0, true, false)
    ensures Admissible(w, c) && var w' := Apply(w, c); w'.candidate == w.candidate && w'.reply.None? && w'.full == w.full
  {
  }

  /** The reply dated 20 is ignored, then the rows are dropped. */
  lemma ThenDropped() returns (l: Log)
    ensures IsLog(l) && |l.commits| == 4 && Replies(l.commits[2]) && l.commits[2].at == 20
    ensures l.states[4].candidate == Some(Candidate(0, 31)) && l.states[4].reply.None? && l.states[4].rows == map[]
    ensures l.states[4].full == Some(62)
  {
    var l2 := Then(Then(Log([Watch(map[], None, None, None, None)], []), FullScan(0, Some(NO_ANSWER))), FullScan(31, Some(NO_ANSWER)));
    TwoFailures(l2);
    var c := Commit(true, 20, Some(ANSWER), {}, true, 0, true, false);
    LateAnswer(l2.states[2], c);
    OneMoreCommit(l2, c);
    OneMoreCommit(Then(l2, c), FullScan(62, None));
    l := Then(Then(l2, c), FullScan(62, None));
  }

  /** Losing the rows while unmonitored also loses the reason a reply was ignored: here a reply dated 20 was committed,
      and the outage that opens at 93 is confirmed by a chain that starts at 0. */
  lemma ForgottenReply() returns (l: Log)
    ensures IsLog(l) && |l.commits| == 5 && Replies(l.commits[2]) && l.commits[2].at == 20
    ensures Unreachable !in l.states[4].rows && Unreachable in l.states[5].rows
    ensures l.states[5].candidate == Some(Candidate(0, 93))
  {
    var l4 := ThenDropped();
    FailedScan(l4.states[4], FullScan(93, Some(NO_ANSWER)), 93);
    OneMoreCommit(l4, FullScan(93, Some(NO_ANSWER)));
    l := Then(l4, FullScan(93, Some(NO_ANSWER)));
  }
}
