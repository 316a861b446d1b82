/** The delivery protocol alerts and announcements share: a message is handed to a sender at most once more than the
 * sender gave it back.
 */
module Deliveries {
  import opened Tables

  type Id = nat

  datatype State = Queued | Taken | Sent | Failed | Unsure | Skipped | InboxOnly
  /** A claim key as one sender uses it. */
  datatype Claim = Claim(adapter: nat, key: nat)
  /** claim is kept when the row is given back; until is the end of the claim or of the pause. */
  datatype Row = Row(state: State, claim: Option<Claim>, until: nat)
  datatype Box = Box(rows: map<Id, Row>, pause: map<nat, nat>)

  datatype Screen = Deliver | Skip | Mute

  /** A request for the next message. closed: maintenance is active. restoring: a restore is under way (announcements).
      listed: the queued rows in the order they are read. screen: whether each is still wanted. wanted: whether the row
      the key already has is still wanted (always, for alerts). */
  datatype Ask = Ask(claim: Claim, now: nat, closed: bool, restoring: bool, listed: seq<Id>, screen: map<Id, Screen>, wanted: bool)

  datatype Answer = Answer(rows: map<Id, Row>, given: Option<Id>, first: bool)

  datatype Verdict = Sending | Failing | Unknowing | Retrying(after: nat)

  predicate Final(s: State) { !s.Queued? && !s.Taken? }

  function Expired(rows: map<Id, Row>, now: nat): map<Id, Row> {
    map i | i in rows :: if rows[i].state.Taken? && rows[i].until <= now then rows[i].(state := Unsure) else rows[i]
  }

  predicate Paused(b: Box, adapter: nat, now: nat) { adapter in b.pause && b.pause[adapter] > now }

  predicate Bound(rows: map<Id, Row>, i: Id, c: Claim) { i in rows && rows[i].claim == Some(c) }

  ghost predicate KeysDistinct(rows: map<Id, Row>) {
    forall i, j, c :: Bound(rows, i, c) && Bound(rows, j, c) ==> i == j
  }

  /** The rows the loop reads are queued. */
  ghost predicate Listed(rows: map<Id, Row>, listed: seq<Id>, screen: map<Id, Screen>) {
    (forall i :: i in listed ==> i in rows && rows[i].state.Queued? && i in screen) &&
    (forall i, j :: 0 <= i < j < |listed| ==> listed[i] != listed[j])
  }

  /** Rows up to the first one to deliver are put aside. */
  function Sifted(rows: map<Id, Row>, a: Ask, n: nat): map<Id, Row>
    requires n <= |a.listed| && forall i :: i in a.listed ==> i in rows && i in a.screen
    ensures Sifted(rows, a, n).Keys == rows.Keys
  {
    if n == 0 then rows
    else
      var before := Sifted(rows, a, n - 1);
      var i := a.listed[n - 1];
      before[i := before[i].(state := match a.screen[i] case Skip => Skipped case Mute => InboxOnly case Deliver => before[i].state)]
  }

  predicate FirstWanted(a: Ask, n: nat)
    requires forall i :: i in a.listed ==> i in a.screen
  {
    n <= |a.listed| && (forall i :: 0 <= i < n ==> !a.screen[a.listed[i]].Deliver?) &&
    (n < |a.listed| ==> a.screen[a.listed[n]].Deliver?)
  }

  /** What a request does. */
  ghost predicate Answers(b: Box, a: Ask, r: Answer) {
    var rows := Expired(b.rows, a.now);
    if a.closed || Paused(b, a.claim.adapter, a.now) then r == Answer(b.rows, None, false)
    else if a.restoring then r == Answer(rows, None, false)
    else if exists i :: Bound(rows, i, a.claim) then
      exists i :: Bound(rows, i, a.claim) &&
        r == if !rows[i].state.Taken? then Answer(rows, None, false)
             else if !a.wanted then Answer(rows[i := rows[i].(state := Unsure)], None, false)
             else Answer(rows, Some(i), false)
    else
      exists n :: Takes(rows, a, n, r)
  }

  /** The loop ends at row n of the list, or without a row. */
  ghost predicate Takes(rows: map<Id, Row>, a: Ask, n: nat, r: Answer) {
    Listed(rows, a.listed, a.screen) && FirstWanted(a, n) &&
    r == if n == |a.listed| then Answer(Sifted(rows, a, n), None, false)
         else Answer(Sifted(rows, a, n)[a.listed[n] := Row(Taken, Some(a.claim), a.now + 120)], Some(a.listed[n]), true)
  }

  function Ending(v: Verdict): State
    requires !v.Retrying?
  {
    match v case Sending => Sent case Failing => Failed case Unknowing => Unsure
  }

  datatype AckResult = NotFound | Finalized | Accepted

  function Ack(b: Box, i: Id, c: Claim, v: Verdict, now: nat): AckResult {
    if !Bound(b.rows, i, c) then NotFound
    else if b.rows[i].state.Taken? then Accepted
    else if v.Retrying? then (if b.rows[i].state.Queued? then Accepted else Finalized)
    else if b.rows[i].state == Ending(v) then Accepted else Finalized
  }

  function Later(b: Box, adapter: nat, t: nat): nat { if adapter in b.pause && b.pause[adapter] > t then b.pause[adapter] else t }

  /** Only a row that is still claimed changes. */
  function AfterAck(b: Box, i: Id, c: Claim, v: Verdict, now: nat): Box {
    if !Bound(b.rows, i, c) || !b.rows[i].state.Taken? then b
    else if v.Retrying? then
      var until := Later(b, c.adapter, now + v.after);
      Box(b.rows[i := Row(Queued, Some(c), until)], b.pause[c.adapter := until])
    else b.(rows := b.rows[i := b.rows[i].(state := Ending(v))])
  }

  // ----- Runs -----

  datatype Action =
    | Asks(ask: Ask, answer: Answer)
    | Acks(id: Id, claim: Claim, verdict: Verdict, now: nat)
    | Adds(id: Id, state: State)
    | Expires(now: nat)
    | Skips(ids: set<Id>)                  // queued alerts dropped when monitoring is switched off

  ghost predicate Next(b: Box, a: Action, b': Box) {
    match a
    case Asks(ask, answer) => Answers(b, ask, answer) && b' == b.(rows := answer.rows)
    case Acks(i, c, v, now) => b' == AfterAck(b, i, c, v, now)
    case Adds(i, s) => i !in b.rows && (s.Queued? || s.InboxOnly?) && b' == b.(rows := b.rows[i := Row(s, None, 0)])
    case Expires(now) => b' == b.(rows := Expired(b.rows, now))
    case Skips(ids) => b' == b.(rows := map i | i in b.rows ::
        if i in ids && b.rows[i].state.Queued? then b.rows[i].(state := Skipped) else b.rows[i])
  }

  datatype Log = Log(states: seq<Box>, actions: seq<Action>)

  ghost predicate StepAt(l: Log, i: nat) {
    i < |l.actions| && i + 1 < |l.states| && Next(l.states[i], l.actions[i], l.states[i + 1])
  }

  ghost predicate IsLog(l: Log) {
    |l.states| == |l.actions| + 1 && l.states[0] == Box(map[], map[]) && forall i: nat :: i < |l.actions| ==> StepAt(l, i)
  }

  predicate Gives(a: Action, i: Id) { a.Asks? && a.answer.first && a.answer.given == Some(i) }

  /** The acknowledgement gives the row back. */
  predicate GivesBack(b: Box, a: Action, i: Id) {
    a.Acks? && a.id == i && a.verdict.Retrying? && Bound(b.rows, i, a.claim) && b.rows[i].state.Taken?
  }

  // ----- What one step does to one row -----

  lemma {:induction false} SiftedRow(rows: map<Id, Row>, a: Ask, n: nat, i: Id)
    requires Listed(rows, a.listed, a.screen) && n <= |a.listed| && i in rows
    requires forall k :: 0 <= k < n ==> !a.screen[a.listed[k]].Deliver?
    ensures Sifted(rows, a, n)[i].claim == rows[i].claim
    ensures i !in a.listed[..n] ==> Sifted(rows, a, n)[i] == rows[i]
    ensures i in a.listed[..n] ==> rows[i].state.Queued?
    ensures i in a.listed[..n] ==>
      Sifted(rows, a, n)[i].state == (if a.screen[i] == Skip then Skipped else InboxOnly) && a.screen[i] != Deliver
  {
    if n == 0 {
    } else {
      SiftedRow(rows, a, n - 1, i);
      assert a.listed[..n] == a.listed[..n - 1] + [a.listed[n - 1]];
    }
  }

  /** How a row can change in one step. */
  ghost predicate Moves(b: Box, a: Action, b': Box, i: Id)
    requires i in b.rows
  {
    i in b'.rows &&
    var x, y := b.rows[i], b'.rows[i];
    if Gives(a, i) then x.state.Queued? && y.state.Taken? && y.claim == Some(a.ask.claim)
    else if GivesBack(b, a, i) then y.state.Queued? && y.claim == x.claim
    else y.claim == x.claim &&
         (y == x || (x.state.Queued? && (y.state.Skipped? || y.state.InboxOnly?)) ||
          (x.state.Taken? && (y.state.Sent? || y.state.Failed? || y.state.Unsure?)))
  }

  lemma TakesMoves(b: Box, a: Ask, n: nat, r: Answer, i: Id)
    requires Takes(Expired(b.rows, a.now), a, n, r) && i in b.rows
    ensures Moves(b, Asks(a, r), b.(rows := r.rows), i)
  {
    SiftedRow(Expired(b.rows, a.now), a, n, i);
    assert n < |a.listed| ==> a.listed[n] in a.listed;
    assert n < |a.listed| ==> a.listed[n] !in a.listed[..n];
  }

  lemma AskMoves(b: Box, a: Ask, r: Answer, i: Id)
    requires Answers(b, a, r) && i in b.rows
    ensures Moves(b, Asks(a, r), b.(rows := r.rows), i)
  {
    var rows := Expired(b.rows, a.now);
    if a.closed || Paused(b, a.claim.adapter, a.now) || a.restoring {
    } else if exists j :: Bound(rows, j, a.claim) {
    } else {
      var n :| Takes(rows, a, n, r);
      TakesMoves(b, a, n, r, i);
    }
  }

  lemma StepMoves(b: Box, a: Action, b': Box, i: Id)
    requires Next(b, a, b') && i in b.rows
    ensures Moves(b, a, b', i)
  {
    if a.Asks? { AskMoves(b, a.ask, a.answer, i); }
  }

  /** A finished delivery stays as it is, whatever is claimed, acknowledged or expires afterwards. */
  lemma {:induction false} FinalIsAbsorbing(l: Log, i: nat, j: nat, d: Id)
    requires IsLog(l) && i <= j < |l.states| && d in l.states[i].rows && Final(l.states[i].rows[d].state)
    ensures d in l.states[j].rows && l.states[j].rows[d] == l.states[i].rows[d]
    decreases j
  {
    if i == j {
    } else {
      FinalIsAbsorbing(l, i, j - 1, d);
      assert StepAt(l, j - 1);
      StepMoves(l.states[j - 1], l.actions[j - 1], l.states[j], d);
    }
  }

  // ----- At most once -----

  ghost function Given(l: Log, d: Id, n: nat): nat
    requires n <= |l.actions|
  {
    if n == 0 then 0 else Given(l, d, n - 1) + if Gives(l.actions[n - 1], d) then 1 else 0
  }

  ghost function Returned(l: Log, d: Id, n: nat): nat
    requires n <= |l.actions| < |l.states|
  {
    if n == 0 then 0 else Returned(l, d, n - 1) + if GivesBack(l.states[n - 1], l.actions[n - 1], d) then 1 else 0
  }

  /** The row has been handed out and not given back. */
  predicate Out(s: State) { s.Taken? || s.Sent? || s.Failed? || s.Unsure? }

  lemma NewRowsAreIn(b: Box, a: Action, b': Box, d: Id)
    requires Next(b, a, b') && d !in b.rows
    ensures !Gives(a, d) && !GivesBack(b, a, d)
    ensures d in b'.rows ==> !Out(b'.rows[d].state) && b'.rows[d].claim.None?
  {
  }

  /** A delivery has been handed out exactly as often as it was given back, plus once if it is out now. */
  lemma {:induction false} GivenIsReturned(l: Log, d: Id, n: nat)
    requires IsLog(l) && n <= |l.actions|
    ensures Given(l, d, n) == Returned(l, d, n) + if d in l.states[n].rows && Out(l.states[n].rows[d].state) then 1 else 0
  {
    if n == 0 {
    } else {
      GivenIsReturned(l, d, n - 1);
      assert StepAt(l, n - 1);
      if d in l.states[n - 1].rows { StepMoves(l.states[n - 1], l.actions[n - 1], l.states[n], d); }
      else { NewRowsAreIn(l.states[n - 1], l.actions[n - 1], l.states[n], d); }
    }
  }

  /** So it is handed out at most once more than it was given back. */
  lemma AtMostOnce(l: Log, d: Id, n: nat)
    requires IsLog(l) && n <= |l.actions|
    ensures Given(l, d, n) <= 1 + Returned(l, d, n)
  {
    GivenIsReturned(l, d, n);
  }

  // ----- Claim keys -----

  lemma StepKeys(b: Box, a: Action, b': Box)
    requires Next(b, a, b') && KeysDistinct(b.rows)
    ensures KeysDistinct(b'.rows)
  {
    forall i, j, c | Bound(b'.rows, i, c) && Bound(b'.rows, j, c)
      ensures i == j
    {
      BoundBefore(b, a, b', i, c);
      BoundBefore(b, a, b', j, c);
      if Gives(a, i) && i != j { KeyWasFree(b, a, b', j); }
      if Gives(a, j) && i != j { KeyWasFree(b, a, b', i); }
    }
  }

  lemma BoundBefore(b: Box, a: Action, b': Box, i: Id, c: Claim)
    requires Next(b, a, b') && Bound(b'.rows, i, c)
    ensures i in b.rows && if Gives(a, i) then a.ask.claim == c else Bound(b.rows, i, c)
  {
    if i !in b.rows { NewRowsAreIn(b, a, b', i); } else { StepMoves(b, a, b', i); }
  }

  /** A key that gets a new row had none. */
  lemma KeyWasFree(b: Box, a: Action, b': Box, i: Id)
    requires Next(b, a, b') && a.Asks? && a.answer.first && i in b.rows
    ensures !Bound(b.rows, i, a.ask.claim)
  {
    var rows := Expired(b.rows, a.ask.now);
    if Bound(b.rows, i, a.ask.claim) { assert Bound(rows, i, a.ask.claim); }
  }

  /** A claim key has at most one delivery. */
  lemma {:induction false} OneRowPerKey(l: Log, n: nat)
    requires IsLog(l) && n < |l.states|
    ensures KeysDistinct(l.states[n].rows)
  {
    if n == 0 {
    } else {
      OneRowPerKey(l, n - 1);
      assert StepAt(l, n - 1);
      StepKeys(l.states[n - 1], l.actions[n - 1], l.states[n]);
    }
  }

  /** Repeating a key that still has its delivery returns that delivery while it is claimed, and otherwise nothing. */
  lemma RepeatedKey(l: Log, n: nat, d: Id)
    requires IsLog(l) && n < |l.actions| && l.actions[n].Asks? && Bound(l.states[n].rows, d, l.actions[n].ask.claim)
    ensures !l.actions[n].answer.first
    ensures l.actions[n].answer.given.None? || (l.actions[n].answer.given == Some(d) && l.states[n].rows[d].state.Taken?)
  {
    OneRowPerKey(l, n);
    assert StepAt(l, n);
    var a := l.actions[n].ask;
    assert Bound(Expired(l.states[n].rows, a.now), d, a.claim);
    forall i | Bound(Expired(l.states[n].rows, a.now), i, a.claim)
      ensures i == d
    {
      assert Bound(l.states[n].rows, i, a.claim);
    }
  }

  /** The last hand-out of delivery d before state n was under the key. */
  ghost predicate LastUnder(l: Log, n: nat, d: Id, c: Claim) { exists k: nat :: IsLastUnder(l, n, d, c, k) }

  ghost predicate IsLastUnder(l: Log, n: nat, d: Id, c: Claim, k: nat) {
    k < n <= |l.actions| && Gives(l.actions[k], d) && l.actions[k].ask.claim == c &&
    forall m: nat :: k < m < n ==> !Gives(l.actions[m], d)
  }

  lemma LastUnderStep(l: Log, n: nat, d: Id, c: Claim)
    requires 0 < n <= |l.actions|
    ensures LastUnder(l, n, d, c) <==> if Gives(l.actions[n - 1], d) then l.actions[n - 1].ask.claim == c else LastUnder(l, n - 1, d, c)
  {
    if Gives(l.actions[n - 1], d) {
      if l.actions[n - 1].ask.claim == c { assert IsLastUnder(l, n, d, c, n - 1); }
    } else {
      if LastUnder(l, n, d, c) {
        var k: nat :| IsLastUnder(l, n, d, c, k);
        assert IsLastUnder(l, n - 1, d, c, k);
      }
      if LastUnder(l, n - 1, d, c) {
        var k: nat :| IsLastUnder(l, n - 1, d, c, k);
        assert IsLastUnder(l, n, d, c, k);
      }
    }
  }

  /** Which key has a delivery: the one of its last hand-out. */
  lemma {:induction false} BoundExactly(l: Log, n: nat, d: Id, c: Claim)
    requires IsLog(l) && n < |l.states|
    ensures Bound(l.states[n].rows, d, c) <==> LastUnder(l, n, d, c)
  {
    if n == 0 {
    } else {
      BoundExactly(l, n - 1, d, c);
      LastUnderStep(l, n, d, c);
      BoundStep(l, n - 1, d, c);
    }
  }

  lemma BoundStep(l: Log, n: nat, d: Id, c: Claim)
    requires IsLog(l) && n < |l.actions|
    ensures Bound(l.states[n + 1].rows, d, c) <==>
            if Gives(l.actions[n], d) then l.actions[n].ask.claim == c else Bound(l.states[n].rows, d, c)
  {
    assert StepAt(l, n);
    if d in l.states[n].rows { StepMoves(l.states[n], l.actions[n], l.states[n + 1], d); }
    else { NewRowsAreIn(l.states[n], l.actions[n], l.states[n + 1], d); }
  }

  /** Nothing closes the request, and some queued row it reads is wanted. */
  ghost predicate Open(b: Box, a: Ask) {
    !a.closed && !a.restoring && !Paused(b, a.claim.adapter, a.now) &&
    exists i :: i in a.listed && i in a.screen && a.screen[i].Deliver?
  }

  /** A request gets a new delivery exactly when it is open and its key has none. */
  lemma FirstExactly(b: Box, a: Ask, r: Answer)
    requires Answers(b, a, r)
    ensures r.first <==> Open(b, a) && forall e :: !Bound(b.rows, e, a.claim)
  {
    var rows := Expired(b.rows, a.now);
    assert forall e :: Bound(rows, e, a.claim) <==> Bound(b.rows, e, a.claim);
    if !a.closed && !a.restoring && !Paused(b, a.claim.adapter, a.now) && !exists e :: Bound(rows, e, a.claim) {
      var n: nat :| Takes(rows, a, n, r);
      if n < |a.listed| { assert a.listed[n] in a.listed; }
    }
  }

  /** Exactly when a request, and so a repeated key, gets a new delivery: it is open, and no delivery was last handed out
      under its key. */
  lemma AnotherExactly(l: Log, j: nat)
    requires IsLog(l) && j < |l.actions| && l.actions[j].Asks?
    ensures l.actions[j].answer.first <==>
            Open(l.states[j], l.actions[j].ask) && forall e :: !LastUnder(l, j, e, l.actions[j].ask.claim)
  {
    assert StepAt(l, j);
    FirstExactly(l.states[j], l.actions[j].ask, l.actions[j].answer);
    forall e
      ensures Bound(l.states[j].rows, e, l.actions[j].ask.claim) <==> LastUnder(l, j, e, l.actions[j].ask.claim)
    {
      BoundExactly(l, j, e, l.actions[j].ask.claim);
    }
  }

  lemma {:induction false} LastGiven(l: Log, i: nat, j: nat, d: Id) returns (k: nat)
    requires i < j <= |l.actions| && Gives(l.actions[i], d)
    ensures i <= k < j && Gives(l.actions[k], d) && forall m: nat :: k < m < j ==> !Gives(l.actions[m], d)
    decreases j
  {
    if i == j - 1 || Gives(l.actions[j - 1], d) { k := j - 1; } else { k := LastGiven(l, i, j - 1, d); }
  }

  /** So a key that was used for one delivery gets another only after the first was handed out under another key. */
  lemma AnotherOnlyAfter(l: Log, i: nat, j: nat, d: Id)
    requires IsLog(l) && i < j < |l.actions| && Gives(l.actions[i], d) && l.actions[j].Asks? && l.actions[j].answer.first
    requires l.actions[j].ask.claim == l.actions[i].ask.claim
    ensures exists k: nat :: i < k < j && Gives(l.actions[k], d) && l.actions[k].ask.claim != l.actions[i].ask.claim
  {
    AnotherExactly(l, j);
    var k := LastGiven(l, i, j, d);
    if l.actions[k].ask.claim == l.actions[i].ask.claim {
      assert IsLastUnder(l, j, d, l.actions[i].ask.claim, k);
      assert LastUnder(l, j, d, l.actions[i].ask.claim);
    }
  }

  function Then(l: Log, a: Action, b: Box): Log { Log(l.states + [b], l.actions + [a]) }

  lemma OneMoreStep(l: Log, a: Action, b: Box)
    requires IsLog(l) && Next(l.states[|l.actions|], a, b)
    ensures IsLog(Then(l, a, b))
  {
    forall i: nat | i < |l.actions| + 1
      ensures StepAt(Then(l, a, b), i)
    {
      if i < |l.actions| { assert StepAt(l, i); }
    }
  }

  const FREE := Row(Queued, None, 0)
  const TWO := Box(map[1 := FREE, 2 := FREE], map[])

  lemma TwoQueued() returns (l: Log)
    ensures IsLog(l) && |l.actions| == 2 && l.states[2] == TWO
  {
    var l0 := Log([Box(map[], map[])], []);
    OneMoreStep(l0, Adds(1, Queued), Box(map[1 := FREE], map[]));
    var l1 := Then(l0, Adds(1, Queued), Box(map[1 := FREE], map[]));
    OneMoreStep(l1, Adds(2, Queued), TWO);
    l := Then(l1, Adds(2, Queued), TWO);
  }

  function Asking(key: nat, now: nat, listed: seq<Id>): Ask {
    Ask(Claim(0, key), now, false, false, listed, map[1 := Deliver, 2 := Deliver], true)
  }

  const BACK := Box(map[1 := Row(Queued, Some(Claim(0, 7)), 1), 2 := FREE], map[0 := 1])

  lemma GivenBack() returns (l: Log)
    ensures IsLog(l) && |l.actions| == 4 && l.states[4] == BACK
    ensures l.actions[2].Asks? && l.actions[2].ask.claim == Claim(0, 7) && Gives(l.actions[2], 1)
  {
    l := TwoQueued();
    l := HandOut(l, Asking(7, 0, [1, 2]), Box(map[1 := Row(Taken, Some(Claim(0, 7)), 120), 2 := FREE], map[]));
    OneMoreStep(l, Acks(1, Claim(0, 7), Retrying(1), 0), BACK);
    l := Then(l, Acks(1, Claim(0, 7), Retrying(1), 0), BACK);
  }

  /** After a delivery was given back and handed out under a second key, the first key is free again: here it gets
      another delivery. */
  lemma ReusedKey() returns (l: Log)
    ensures IsLog(l) && |l.actions| == 6 && l.actions[2].Asks? && l.actions[5].Asks?
    ensures l.actions[2].ask.claim == l.actions[5].ask.claim && Gives(l.actions[2], 1) && Gives(l.actions[5], 2)
  {
    var again := Row(Taken, Some(Claim(0, 8)), 121);
    l := GivenBack();
    l := HandOut(l, Asking(8, 1, [1, 2]), BACK.(rows := map[1 := again, 2 := FREE]));
    l := HandOut(l, Asking(7, 1, [2]), BACK.(rows := map[1 := again, 2 := Row(Taken, Some(Claim(0, 7)), 121)]));
  }

  lemma HandOut(l: Log, a: Ask, b: Box) returns (l': Log)
    requires IsLog(l) && |a.listed| > 0 && var s := l.states[|l.actions|];
      !a.closed && !a.restoring && !Paused(s, a.claim.adapter, a.now) && Listed(s.rows, a.listed, a.screen) &&
      Expired(s.rows, a.now) == s.rows && (forall i :: !Bound(s.rows, i, a.claim)) && a.screen[a.listed[0]].Deliver? &&
      b == s.(rows := s.rows[a.listed[0] := Row(Taken, Some(a.claim), a.now + 120)])
    ensures l' == Then(l, Asks(a, Answer(b.rows, Some(a.listed[0]), true)), b) && IsLog(l')
  {
    FreshAnswer(l.states[|l.actions|], a, b.rows);
    OneMoreStep(l, Asks(a, Answer(b.rows, Some(a.listed[0]), true)), b);
    l' := Then(l, Asks(a, Answer(b.rows, Some(a.listed[0]), true)), b);
  }

  lemma FreshAnswer(b: Box, a: Ask, rows: map<Id, Row>)
    requires !a.closed && !a.restoring && !Paused(b, a.claim.adapter, a.now) && Listed(b.rows, a.listed, a.screen)
    requires Expired(b.rows, a.now) == b.rows && (forall i :: !Bound(b.rows, i, a.claim)) && |a.listed| > 0
    requires a.screen[a.listed[0]].Deliver? && rows == b.rows[a.listed[0] := Row(Taken, Some(a.claim), a.now + 120)]
    ensures Answers(b, a, Answer(rows, Some(a.listed[0]), true))
  {
    assert Takes(b.rows, a, 0, Answer(rows, Some(a.listed[0]), true));
  }

  // ----- Pauses -----

  lemma StepPause(b: Box, a: Action, b': Box, adapter: nat, t: nat)
    requires Next(b, a, b') && adapter in b.pause && b.pause[adapter] >= t
    ensures adapter in b'.pause && b'.pause[adapter] >= t
  {
  }

  lemma {:induction false} PauseGrows(l: Log, i: nat, j: nat, adapter: nat, t: nat)
    requires IsLog(l) && i <= j < |l.states| && adapter in l.states[i].pause && l.states[i].pause[adapter] >= t
    ensures adapter in l.states[j].pause && l.states[j].pause[adapter] >= t
    decreases j
  {
    if i == j {
    } else {
      PauseGrows(l, i, j - 1, adapter, t);
      assert StepAt(l, j - 1);
      StepPause(l.states[j - 1], l.actions[j - 1], l.states[j], adapter, t);
    }
  }

  /** After a sender was told to slow down it gets nothing until the pause is over. */
  lemma PauseIsKept(l: Log, i: nat, j: nat)
    requires IsLog(l) && i < j < |l.actions| && l.actions[i].Acks? && GivesBack(l.states[i], l.actions[i], l.actions[i].id)
    requires l.actions[j].Asks? && l.actions[j].ask.claim.adapter == l.actions[i].claim.adapter
    requires l.actions[j].ask.now < l.actions[i].now + l.actions[i].verdict.after
    ensures l.actions[j].answer.given.None?
  {
    assert StepAt(l, i) && StepAt(l, j);
    PauseGrows(l, i + 1, j, l.actions[i].claim.adapter, l.actions[i].now + l.actions[i].verdict.after);
  }

  // ----- The tables -----

  class Outbox {
    var rows: map<Id, Row>
    var pause: map<nat, nat>

    ghost function View(): Box
      reads this
    {
      Box(rows, pause)
    }

    constructor ()
      ensures View() == Box(map[], map[])
    {
      rows, pause := map[], map[];
    }

    method Expire(now: nat)
      modifies this`rows
      ensures rows == Expired(old(rows), now)
    {
      rows := map i | i in rows :: if rows[i].state.Taken? && rows[i].until <= now then rows[i].(state := Unsure) else rows[i];
    }

    /** The loop over queued rows, up to the first that is still wanted. */
    method Take(a: Ask) returns (given: Option<Id>)
      requires Listed(rows, a.listed, a.screen)
      modifies this`rows
      ensures exists n :: Takes(old(rows), a, n, Answer(rows, given, given.Some?))
    {
      ghost var was := rows;
      for n := 0 to |a.listed|
        invariant forall i :: 0 <= i < n ==> !a.screen[a.listed[i]].Deliver?
        invariant rows == Sifted(was, a, n)
      {
        var i := a.listed[n];
        match a.screen[i]
        case Skip => rows := rows[i := rows[i].(state := Skipped)];
        case Mute => rows := rows[i := rows[i].(state := InboxOnly)];
        case Deliver =>
          rows := rows[i := Row(Taken, Some(a.claim), a.now + 120)];
          given := Some(i);
          assert Takes(was, a, n, Answer(rows, given, given.Some?));
          return;
      }
      given := None;
      assert Takes(was, a, |a.listed|, Answer(rows, given, given.Some?));
    }

    /** claim. */
    method Claim(a: Ask) returns (r: Answer)
      requires Listed(rows, a.listed, a.screen)
      modifies this`rows
      ensures Answers(old(View()), a, r) && rows == r.rows
    {
      if a.closed || (a.claim.adapter in pause && pause[a.claim.adapter] > a.now) { return Answer(rows, None, false); }
      Expire(a.now);
      if a.restoring { return Answer(rows, None, false); }
      var mine := set i | i in rows && rows[i].claim == Some(a.claim);
      assert forall i :: Bound(rows, i, a.claim) <==> i in mine;
      if mine != {} {
        var i :| i in mine;
        assert Bound(rows, i, a.claim);
        if !rows[i].state.Taken? { return Answer(rows, None, false); }
        if !a.wanted {
          ghost var before := rows;
          rows := rows[i := rows[i].(state := Unsure)];
          assert Bound(before, i, a.claim);
          return Answer(rows, None, false);
        }
        return Answer(rows, Some(i), false);
      }
      var given := Take(a);
      return Answer(rows, given, given.Some?);
    }

    /** acknowledge. */
    method Acknowledge(i: Id, c: Claim, v: Verdict, now: nat) returns (r: AckResult)
      modifies this
      ensures r == Ack(old(View()), i, c, v, now) && View() == AfterAck(old(View()), i, c, v, now)
      ensures r.NotFound? <==> i !in old(rows) || old(rows)[i].claim != Some(c)
      ensures !r.NotFound? && old(rows)[i].state == Taken ==>
        r.Accepted? && i in rows && (v == Sending ==> rows[i].state == Sent) && (v == Failing ==> rows[i].state == Failed) &&
        (v == Unknowing ==> rows[i].state == Unsure) && (v.Retrying? ==> rows[i].state == Queued)
      ensures !r.NotFound? && old(rows)[i].state == Taken && v.Retrying? ==>
        c.adapter in pause && rows[i].until == pause[c.adapter] && pause[c.adapter] >= now + v.after &&
        pause[c.adapter] == if c.adapter in old(pause) && old(pause)[c.adapter] > now + v.after then old(pause)[c.adapter] else now + v.after
      ensures !r.NotFound? && old(rows)[i].state != Taken ==> rows == old(rows) && pause == old(pause)
      ensures !r.NotFound? && old(rows)[i].state != Taken ==>
        (r.Accepted? <==> (v == Sending && rows[i].state == Sent) || (v == Failing && rows[i].state == Failed) ||
                          (v == Unknowing && rows[i].state == Unsure) || (v.Retrying? && rows[i].state == Queued))
    {
      if i !in rows || rows[i].claim != Some(c) { return NotFound; }
      var s := rows[i].state;
      if v.Retrying? {
        if s.Taken? {
          var until := now + v.after;
          if c.adapter in pause && pause[c.adapter] > until { until := pause[c.adapter]; }
          pause := pause[c.adapter := until];
          rows := rows[i := Row(Queued, Some(c), until)];
        } else if !s.Queued? {
          return Finalized;
        }
        return Accepted;
      }
      if !s.Taken? && s != Ending(v) { return Finalized; }
      rows := rows[i := rows[i].(state := Ending(v))];
      return Accepted;
    }
  }
}
