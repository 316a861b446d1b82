/** What each status of a delivery says about the log: who reported it, what expired, what was no longer wanted. */
module DeliveryOutcomes {
  import opened Tables
  import opened Deliveries

  /** The delivery is with the sender that claimed it under the key. */
  predicate Claimed(b: Box, d: Id, c: Claim) { d in b.rows && b.rows[d].state == Taken && b.rows[d].claim == Some(c) }

  /** The sender reports the verdict on a delivery it has. */
  predicate Reports(b: Box, a: Action, d: Id, v: Verdict) { a.Acks? && a.id == d && a.verdict == v && Claimed(b, d, a.claim) }

  /** Maintenance and pauses keep a request from touching anything. */
  predicate Reads(b: Box, a: Action) {
    a.Asks? && !a.ask.closed && !(a.ask.claim.adapter in b.pause && b.pause[a.ask.claim.adapter] > a.ask.now)
  }

  /** The step notices that the sender's time is up. */
  predicate TimesOut(b: Box, a: Action, d: Id) {
    d in b.rows && b.rows[d].state == Taken &&
    ((a.Expires? && b.rows[d].until <= a.now) || (Reads(b, a) && b.rows[d].until <= a.ask.now))
  }

  /** The sender repeats its key in time, but its message is no longer wanted. */
  predicate Unwanted(b: Box, a: Action, d: Id) {
    Reads(b, a) && !a.ask.restoring && !a.ask.wanted && Claimed(b, d, a.ask.claim) && b.rows[d].until > a.ask.now
  }

  /** The request reads past the queued delivery, which the screen does not let through. */
  ghost predicate PassedOver(b: Box, a: Action, d: Id, s: Screen) {
    Reads(b, a) && !a.ask.restoring && (forall e :: !Bound(b.rows, e, a.ask.claim)) &&
    exists m :: 0 <= m < |a.ask.listed| && PassedAt(a.ask, m, d, s)
  }

  predicate PassedAt(a: Ask, m: nat, d: Id, s: Screen) {
    m < |a.listed| && a.listed[m] == d && d in a.screen && a.screen[d] == s &&
    forall i :: 0 <= i <= m ==> a.listed[i] in a.screen && a.screen[a.listed[i]] != Deliver
  }

  ghost predicate Skipping(b: Box, a: Action, d: Id) {
    (a.Skips? && d in a.ids && d in b.rows && b.rows[d].state == Queued) || PassedOver(b, a, d, Skip)
  }

  ghost predicate Muting(b: Box, a: Action, d: Id) {
    (a.Adds? && a.id == d && a.state == InboxOnly) || PassedOver(b, a, d, Mute)
  }

  /** The status the step gives the delivery, if it gives it a final one. */
  ghost predicate Ends(b: Box, a: Action, d: Id, s: State) {
    match s
    case Sent => Reports(b, a, d, Sending)
    case Failed => Reports(b, a, d, Failing)
    case Unsure => Reports(b, a, d, Unknowing) || TimesOut(b, a, d) || Unwanted(b, a, d)
    case Skipped => Skipping(b, a, d)
    case InboxOnly => Muting(b, a, d)
    case _ => false
  }

  ghost predicate HasState(b: Box, d: Id, s: State) { d in b.rows && b.rows[d].state == s }

  lemma PassedIsSifted(rows: map<Id, Row>, a: Ask, n: nat, r: Answer, d: Id, s: Screen)
    requires Takes(rows, a, n, r) && s != Deliver && d in rows
    ensures (exists m :: 0 <= m < |a.listed| && PassedAt(a, m, d, s)) <==> d in a.listed[..n] && a.screen[d] == s
  {
    if d in a.listed[..n] && a.screen[d] == s {
      var m :| 0 <= m < n && a.listed[m] == d;
      assert a.listed[m] in a.listed;
      assert forall i :: 0 <= i <= m ==> a.listed[i] in a.listed;
      assert PassedAt(a, m, d, s);
    }
    if m :| 0 <= m < |a.listed| && PassedAt(a, m, d, s) {
      assert m < n;
      assert a.listed[..n][m] == d;
    }
  }

  /** A request that gets to the list. */
  lemma TakesEnds(b: Box, a: Ask, n: nat, r: Answer, d: Id, s: State)
    requires Takes(Expired(b.rows, a.now), a, n, r) && d in b.rows && Final(s) && Reads(b, Asks(a, r)) && !a.restoring
    requires forall e :: !Bound(b.rows, e, a.claim)
    ensures HasState(b.(rows := r.rows), d, s) <==> HasState(b, d, s) || Ends(b, Asks(a, r), d, s)
  {
    var rows := Expired(b.rows, a.now);
    SiftedRow(rows, a, n, d);
    assert n < |a.listed| ==> a.listed[n] in a.listed;
    assert n < |a.listed| ==> a.listed[n] !in a.listed[..n];
    PassedIsSifted(rows, a, n, r, d, Skip);
    PassedIsSifted(rows, a, n, r, d, Mute);
    assert Claimed(b, d, a.claim) ==> Bound(b.rows, d, a.claim);
  }

  /** A request whose key has a delivery. */
  lemma BoundEnds(b: Box, a: Ask, r: Answer, d: Id, s: State, e: Id)
    requires Answers(b, a, r) && KeysDistinct(b.rows) && d in b.rows && Final(s) && Reads(b, Asks(a, r)) && !a.restoring
    requires Bound(b.rows, e, a.claim)
    ensures HasState(b.(rows := r.rows), d, s) <==> HasState(b, d, s) || Ends(b, Asks(a, r), d, s)
  {
    var rows := Expired(b.rows, a.now);
    assert Bound(rows, e, a.claim);
    assert Claimed(b, d, a.claim) ==> Bound(b.rows, d, a.claim);
    forall i | Bound(rows, i, a.claim)
      ensures i == e
    {
      assert Bound(b.rows, i, a.claim);
    }
  }

  lemma AskEnds(b: Box, a: Ask, r: Answer, d: Id, s: State)
    requires Answers(b, a, r) && KeysDistinct(b.rows) && d in b.rows && Final(s)
    ensures HasState(b.(rows := r.rows), d, s) <==> HasState(b, d, s) || Ends(b, Asks(a, r), d, s)
  {
    var rows := Expired(b.rows, a.now);
    assert forall e :: Bound(rows, e, a.claim) <==> Bound(b.rows, e, a.claim);
    if !Reads(b, Asks(a, r)) || a.restoring {
    } else if e :| Bound(b.rows, e, a.claim) {
      BoundEnds(b, a, r, d, s, e);
    } else {
      var n :| Takes(rows, a, n, r);
      TakesEnds(b, a, n, r, d, s);
    }
  }

  lemma StepEnds(b: Box, a: Action, b': Box, d: Id, s: State)
    requires Next(b, a, b') && KeysDistinct(b.rows) && Final(s)
    ensures HasState(b', d, s) <==> HasState(b, d, s) || Ends(b, a, d, s)
  {
    if a.Asks? {
      if d in b.rows { AskEnds(b, a.ask, a.answer, d, s); } else { UnknownEnds(b, a, b', d, s); }
    }
  }

  lemma UnknownEnds(b: Box, a: Action, b': Box, d: Id, s: State)
    requires Next(b, a, b') && a.Asks? && d !in b.rows
    ensures d !in b'.rows && !Ends(b, a, d, s)
  {
    var rows := Expired(b.rows, a.ask.now);
    assert forall e :: Bound(rows, e, a.ask.claim) <==> Bound(b.rows, e, a.ask.claim);
    if Reads(b, a) && !a.ask.restoring && forall e :: !Bound(b.rows, e, a.ask.claim) {
      var n :| Takes(rows, a.ask, n, a.answer);
      assert forall m :: 0 <= m < |a.ask.listed| ==> a.ask.listed[m] in a.ask.listed;
    }
  }

  /** Some step before state n gave the delivery the status. */
  ghost predicate Ended(l: Log, n: nat, d: Id, s: State) {
    exists k: nat :: k < n && EndedAt(l, k, d, s)
  }

  ghost predicate EndedAt(l: Log, k: nat, d: Id, s: State) {
    k < |l.actions| && k < |l.states| && Ends(l.states[k], l.actions[k], d, s)
  }

  /** Every final status means that a step of the log gave exactly that status. */
  lemma {:induction false} StatusExactly(l: Log, n: nat, d: Id, s: State)
    requires IsLog(l) && n < |l.states| && Final(s)
    ensures HasState(l.states[n], d, s) <==> Ended(l, n, d, s)
  {
    if n == 0 {
    } else {
      StatusExactly(l, n - 1, d, s);
      OneRowPerKey(l, n - 1);
      assert StepAt(l, n - 1);
      StepEnds(l.states[n - 1], l.actions[n - 1], l.states[n], d, s);
      assert Ended(l, n, d, s) <==> Ended(l, n - 1, d, s) || EndedAt(l, n - 1, d, s);
    }
  }

  /** Sent means that the sender that had it reported it sent, failed that it reported a failure. */
  lemma SentExactly(l: Log, n: nat, d: Id)
    requires IsLog(l) && n < |l.states| && d in l.states[n].rows
    ensures l.states[n].rows[d].state == Sent <==>
      exists k: nat :: k < n && ReportedAt(l, k, d, Sending)
    ensures l.states[n].rows[d].state == Failed <==>
      exists k: nat :: k < n && ReportedAt(l, k, d, Failing)
  {
    StatusExactly(l, n, d, Sent);
    StatusExactly(l, n, d, Failed);
    forall k: nat
      ensures EndedAt(l, k, d, Sent) <==> ReportedAt(l, k, d, Sending)
      ensures EndedAt(l, k, d, Failed) <==> ReportedAt(l, k, d, Failing)
    {
    }
  }

  ghost predicate ReportedAt(l: Log, k: nat, d: Id, v: Verdict) {
    k < |l.actions| && k < |l.states| && Reports(l.states[k], l.actions[k], d, v)
  }

  /** A claim ends two minutes after the request that got the delivery. */
  lemma {:induction false} ClaimEnds(l: Log, n: nat, d: Id) returns (k: nat)
    requires IsLog(l) && n < |l.states| && d in l.states[n].rows && l.states[n].rows[d].state == Taken
    ensures k < n && Gives(l.actions[k], d) && (forall m: nat :: k < m < n ==> !Gives(l.actions[m], d))
    ensures l.states[n].rows[d] == Row(Taken, Some(l.actions[k].ask.claim), l.actions[k].ask.now + 120)
  {
    assert StepAt(l, n - 1);
    var b, a, b' := l.states[n - 1], l.actions[n - 1], l.states[n];
    if d !in b.rows { NewRowsAreIn(b, a, b', d); }
    StepMoves(b, a, b', d);
    if Gives(a, d) {
      k := n - 1;
      GivenRow(b, a.ask, a.answer, d);
    } else {
      k := ClaimEnds(l, n - 1, d);
    }
  }

  lemma GivenRow(b: Box, a: Ask, r: Answer, d: Id)
    requires Answers(b, a, r) && r.first && r.given == Some(d)
    ensures d in r.rows && r.rows[d] == Row(Taken, Some(a.claim), a.now + 120)
  {
  }
}
