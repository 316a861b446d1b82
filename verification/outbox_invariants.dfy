/** What every step of the outbox keeps. */
module OutboxInvariants {
  import opened Tables
  import opened OutboxRun

  /** No effect of the command is outstanding: it finished, was fenced, or was never sent. */
  ghost predicate Settled(s: System, id: TaskId)
    requires id in s.db.tasks
  {
    Terminal(s.db.tasks[id].status) && id !in s.w.held && !Live(s.w, id)
  }

  ghost predicate Ids(s: System) {
    s.w.held <= s.db.tasks.Keys &&
    (forall i :: i in s.w.dispatched ==> i in s.db.tasks && i !in s.w.held) &&
    (forall i, j :: 0 <= i < j < |s.w.dispatched| ==> s.w.dispatched[i] != s.w.dispatched[j]) &&
    (forall i :: i in s.w.applied ==> i in s.w.dispatched)
  }

  ghost predicate States(s: System)
    requires Ids(s)
  {
    (forall i :: i in s.w.held ==> s.db.tasks[i].status.Running?) &&
    (forall i :: i in s.w.dispatched ==> !s.db.tasks[i].status.Awaiting?) &&
    (forall i :: i in s.db.tasks && s.db.tasks[i].status.Succeeded? ==> i in s.w.applied)
  }

  /** A command that may still take effect occupies its node, unless the node was given up. */
  ghost predicate LiveOccupies(s: System)
    requires Ids(s)
  {
    forall i :: i in s.w.dispatched && Live(s.w, i) ==>
      Occupies(s.db.tasks[i].status) || s.db.tasks[i].node in s.db.retirements
  }

  ghost predicate OnePerNode(db: Db) {
    forall i, j | i in db.tasks && j in db.tasks && Occupies(db.tasks[i].status) && Occupies(db.tasks[j].status)
      :: db.tasks[i].node == db.tasks[j].node ==> i == j
  }

  ghost predicate RetiredQuiet(db: Db) {
    forall i :: i in db.tasks && db.tasks[i].node in db.retirements ==> Terminal(db.tasks[i].status)
  }

  predicate Sent(w: World, id: TaskId) { id in w.held || id in w.dispatched }

  ghost predicate Overtakes(db: Db, i: TaskId, j: TaskId) {
    i in db.tasks && j in db.tasks && SameLine(db.tasks[i], db.tasks[j]) && db.tasks[i].revision < db.tasks[j].revision
  }

  /** When a task was claimed, everything older on its line was settled for good. */
  ghost predicate OlderSettled(s: System) {
    forall i, j :: Sent(s.w, j) && Overtakes(s.db, i, j) ==> Settled(s, i)
  }

  ghost predicate Unique(db: Db) {
    (forall i, j :: i in db.tasks && j in db.tasks && KeyOf(db.tasks[i]) == KeyOf(db.tasks[j]) ==>
       db.tasks[i].profile == db.tasks[j].profile) &&
    (forall i, j :: i in db.tasks && j in db.tasks && i != j && KeyOf(db.tasks[i]) == KeyOf(db.tasks[j]) ==>
       db.tasks[i].revision != db.tasks[j].revision)
  }

  /** Task i is the newest command on its peer that took effect. */
  ghost predicate LastApplied(s: System, i: TaskId) {
    i in s.w.applied && i in s.db.tasks &&
    forall j :: j in s.w.applied && j in s.db.tasks && KeyOf(s.db.tasks[j]) == KeyOf(s.db.tasks[i]) ==>
      s.db.tasks[j].revision <= s.db.tasks[i].revision
  }

  /** The peers on the nodes are those whose newest applied command is an ensure, with the identity it carried. */
  ghost predicate RemoteExplained(s: System) {
    (forall k :: k in s.w.remote ==>
       exists i :: LastApplied(s, i) && KeyOf(s.db.tasks[i]) == k && s.db.tasks[i].action.Ensure?) &&
    (forall i :: LastApplied(s, i) && s.db.tasks[i].action.Ensure? && s.db.tasks[i].node !in s.db.retirements ==>
       KeyOf(s.db.tasks[i]) in s.w.remote) &&
    (forall i :: LastApplied(s, i) && s.db.tasks[i].action.Ensure? ==> Carries(s, i))
  }

  /** The peer has the identity of the row's ensure. */
  predicate Carries(s: System, i: TaskId) {
    i in s.db.tasks && KeyOf(s.db.tasks[i]) in s.w.carried && s.w.carried[KeyOf(s.db.tasks[i])] == s.db.tasks[i].secret
  }

  /** The calls made to the driver are in revision order on every line. */
  ghost predicate LogOrdered(s: System) {
    forall i, j :: 0 <= i < j < |s.w.dispatched| ==> !Overtakes(s.db, s.w.dispatched[j], s.w.dispatched[i])
  }

  ghost predicate Core(s: System) {
    Ids(s) && States(s) && LiveOccupies(s) && OnePerNode(s.db) && RetiredQuiet(s.db) && OlderSettled(s) &&
    Unique(s.db) && RemoteExplained(s) && LogOrdered(s)
  }

  // ----- The shape every step except Effect has -----

  /** Only the status differs. */
  predicate SameRow(a: Task, b: Task) {
    a.op == b.op && a.profile == b.profile && a.revision == b.revision && a.created == b.created && a.node == b.node &&
    a.protocol == b.protocol && a.slot == b.slot && a.name == b.name && a.action == b.action && a.secret == b.secret
  }

  /** A task may be claimed: its node is free and everything older on its line is terminal. */
  ghost predicate MayClaim(db: Db, id: TaskId)
    requires id in db.tasks
  {
    !NodeOccupied(db, db.tasks[id].node) &&
    forall e :: Overtakes(db, e, id) ==> Terminal(db.tasks[e].status)
  }

  ghost predicate Moves(s: System, s': System, id: TaskId)
    requires id in s.db.tasks && id in s'.db.tasks
  {
    var a, b := s.db.tasks[id].status, s'.db.tasks[id].status;
    match b
    case Awaiting => a.Awaiting?
    case Running => a.Running? || (a.Awaiting? && MayClaim(s.db, id) && id in s'.w.held)
    case Blocked => a.Blocked? || (a.Running? && id !in s'.w.held)
    case Succeeded => a.Succeeded? || (Occupies(a) && id in s.w.applied && id !in s'.w.held)
    case Superseded =>
      a.Superseded? || a.Awaiting? ||
      (Occupies(a) && id !in s'.w.held && (id in s.w.fenced || s.db.tasks[id].node in s'.db.retirements))
  }

  ghost predicate OldRows(s: System, s': System) {
    forall i :: i in s.db.tasks ==>
      i in s'.db.tasks && SameRow(s.db.tasks[i], s'.db.tasks[i]) && Moves(s, s', i)
  }

  ghost predicate NewRows(s: System, s': System) {
    forall i :: i in s'.db.tasks && i !in s.db.tasks ==>
      s'.db.tasks[i].status.Awaiting? && s'.db.tasks[i].node !in s'.db.retirements &&
      forall j :: j in s.db.tasks && SameLine(s.db.tasks[j], s'.db.tasks[i]) ==>
        s.db.tasks[j].revision < s'.db.tasks[i].revision
  }

  ghost predicate Retirement(s: System, s': System) {
    (forall n :: n in s.db.retirements ==> n in s'.db.retirements) &&
    forall i | i in s'.db.tasks && s'.db.tasks[i].node in s'.db.retirements && s'.db.tasks[i].node !in s.db.retirements
      :: Terminal(s'.db.tasks[i].status)
  }

  ghost predicate Holding(s: System, s': System) {
    (forall i :: i in s'.w.held && i !in s.w.held ==>
       i in s.db.tasks && i in s'.db.tasks && s.db.tasks[i].status.Awaiting? && s'.db.tasks[i].status.Running?) &&
    (forall i, j :: i in s'.w.held && i !in s.w.held && j in s'.w.held && j !in s.w.held ==> i == j)
  }

  ghost predicate Sending(s: System, s': System) {
    s'.w.dispatched == s.w.dispatched ||
    (|s'.w.dispatched| == |s.w.dispatched| + 1 && s.w.dispatched == s'.w.dispatched[..|s.w.dispatched|] &&
     var i := s'.w.dispatched[|s.w.dispatched|];
     i in s.w.held && i !in s'.w.held && s'.db == s.db)
  }

  ghost predicate Quiet(s: System, s': System) {
    s'.w.applied == s.w.applied && s'.w.carried == s.w.carried && s.w.fenced <= s'.w.fenced && s'.w.remote <= s.w.remote &&
    forall k :: k in s.w.remote && k !in s'.w.remote ==> k.node in s'.db.retirements
  }

  ghost predicate Evolves(s: System, s': System) {
    OldRows(s, s') && NewRows(s, s') && Retirement(s, s') && Holding(s, s') && Sending(s, s') && Quiet(s, s')
  }

  // ----- Core is kept by every such step -----

  lemma KeepsIds(s: System, s': System)
    requires Ids(s) && States(s) && Evolves(s, s')
    ensures Ids(s')
  {
  }

  lemma KeepsStates(s: System, s': System)
    requires Ids(s) && States(s) && Evolves(s, s') && Ids(s')
    ensures States(s')
  {
  }

  lemma KeepsLive(s: System, s': System)
    requires Ids(s) && States(s) && LiveOccupies(s) && Evolves(s, s') && Ids(s') && States(s')
    ensures LiveOccupies(s')
  {
  }

  lemma KeepsOnePerNode(s: System, s': System)
    requires Ids(s) && States(s) && OnePerNode(s.db) && Evolves(s, s')
    ensures OnePerNode(s'.db)
  {
  }

  lemma KeepsRetiredQuiet(s: System, s': System)
    requires RetiredQuiet(s.db) && Evolves(s, s')
    ensures RetiredQuiet(s'.db)
  {
  }

  lemma SettledForGood(s: System, s': System, i: TaskId)
    requires Ids(s) && States(s) && Evolves(s, s') && i in s.db.tasks && Settled(s, i)
    ensures i in s'.db.tasks && Settled(s', i) && s'.db.tasks[i].status == s.db.tasks[i].status
  {
  }

  lemma KeepsOlderSettled(s: System, s': System)
    requires Core(s) && Evolves(s, s') && Ids(s') && States(s')
    ensures OlderSettled(s')
  {
    forall i, j | Sent(s'.w, j) && Overtakes(s'.db, i, j)
      ensures Settled(s', i)
    {
      OlderThanSent(s, s', i, j);
      SettledForGood(s, s', i);
    }
  }

  lemma OlderThanSent(s: System, s': System, i: TaskId, j: TaskId)
    requires Core(s) && Evolves(s, s') && Ids(s') && Sent(s'.w, j) && Overtakes(s'.db, i, j)
    ensures i in s.db.tasks && Settled(s, i)
  {
    assert j in s.db.tasks;
    assert SameRow(s.db.tasks[j], s'.db.tasks[j]);
    assert i in s.db.tasks;
    assert SameRow(s.db.tasks[i], s'.db.tasks[i]);
    assert Overtakes(s.db, i, j);
    if !Sent(s.w, j) {
      assert Moves(s, s', j);
      assert MayClaim(s.db, j);
      assert s.db.tasks[j].node !in s.db.retirements;
      assert Terminal(s.db.tasks[i].status);
    }
  }

  lemma KeepsRemote(s: System, s': System)
    requires Ids(s) && RemoteExplained(s) && Evolves(s, s')
    ensures RemoteExplained(s')
  {
  }

  lemma KeepsLog(s: System, s': System)
    requires Ids(s) && States(s) && OlderSettled(s) && LogOrdered(s) && OldRows(s, s') && Sending(s, s')
    ensures LogOrdered(s')
  {
  }

  lemma KeepsCore(s: System, s': System)
    requires Core(s) && Evolves(s, s') && Unique(s'.db)
    ensures Core(s')
  {
    KeepsIds(s, s');
    KeepsStates(s, s');
    KeepsLive(s, s');
    KeepsOnePerNode(s, s');
    KeepsRetiredQuiet(s, s');
    KeepsOlderSettled(s, s');
    KeepsRemote(s, s');
    KeepsLog(s, s');
  }

  // ----- Effect -----

  /** A command that can still take effect is newer than every applied command on its peer. */
  lemma LiveIsNewest(s: System, id: TaskId, j: TaskId)
    requires Core(s) && Live(s.w, id) && id in s.db.tasks && j in s.w.applied && j in s.db.tasks
    requires KeyOf(s.db.tasks[j]) == KeyOf(s.db.tasks[id])
    ensures s.db.tasks[j].revision < s.db.tasks[id].revision
  {
    if s.db.tasks[id].revision < s.db.tasks[j].revision {
      assert Sent(s.w, j) && Overtakes(s.db, id, j);
    }
  }

  lemma EffectIsLast(s: System, id: TaskId, s': System)
    requires Core(s) && EffectRule(s, id, s')
    ensures LastApplied(s', id)
    ensures forall i :: LastApplied(s', i) && KeyOf(s.db.tasks[i]) == KeyOf(s.db.tasks[id]) ==> i == id
  {
    forall j | j in s'.w.applied && j in s.db.tasks && KeyOf(s.db.tasks[j]) == KeyOf(s.db.tasks[id])
      ensures j == id || s.db.tasks[j].revision < s.db.tasks[id].revision
    {
      if j != id { LiveIsNewest(s, id, j); }
    }
  }

  /** Whatever was the last applied command on another peer still is. */
  lemma EffectElsewhere(s: System, id: TaskId, s': System, i: TaskId)
    requires Ids(s) && EffectRule(s, id, s') && i in s.db.tasks && KeyOf(s.db.tasks[i]) != KeyOf(s.db.tasks[id])
    ensures LastApplied(s, i) <==> LastApplied(s', i)
  {
  }

  /** The last command on the peer is now this one; on every other peer it is what it was. */
  ghost predicate LastOnlyHere(s: System, id: TaskId, s': System) {
    id in s.db.tasks && LastApplied(s', id) &&
    forall i :: LastApplied(s', i) && i in s.db.tasks && KeyOf(s.db.tasks[i]) == KeyOf(s.db.tasks[id]) ==> i == id
  }

  lemma EffectExplains(s: System, id: TaskId, s': System, k: PeerKey)
    requires Ids(s) && RemoteExplained(s) && EffectRule(s, id, s') && LastOnlyHere(s, id, s') && k in s'.w.remote
    ensures exists i :: LastApplied(s', i) && KeyOf(s'.db.tasks[i]) == k && s'.db.tasks[i].action.Ensure?
  {
    if k != KeyOf(s.db.tasks[id]) {
      var i :| LastApplied(s, i) && KeyOf(s.db.tasks[i]) == k && s.db.tasks[i].action.Ensure?;
      EffectElsewhere(s, id, s', i);
    }
  }

  lemma EffectPresent(s: System, id: TaskId, s': System, i: TaskId)
    requires Ids(s) && RemoteExplained(s) && EffectRule(s, id, s') && LastOnlyHere(s, id, s')
    requires LastApplied(s', i) && s'.db.tasks[i].action.Ensure?
    ensures s'.db.tasks[i].node !in s'.db.retirements ==> KeyOf(s'.db.tasks[i]) in s'.w.remote
    ensures Carries(s', i)
  {
    if KeyOf(s.db.tasks[i]) != KeyOf(s.db.tasks[id]) { EffectElsewhere(s, id, s', i); }
  }

  lemma EffectKeepsRemote(s: System, id: TaskId, s': System)
    requires Ids(s) && RemoteExplained(s) && EffectRule(s, id, s') && LastOnlyHere(s, id, s')
    ensures RemoteExplained(s')
  {
    forall k | k in s'.w.remote
      ensures exists i :: LastApplied(s', i) && KeyOf(s'.db.tasks[i]) == k && s'.db.tasks[i].action.Ensure?
    {
      EffectExplains(s, id, s', k);
    }
    forall i | LastApplied(s', i) && s'.db.tasks[i].action.Ensure?
      ensures s'.db.tasks[i].node !in s'.db.retirements ==> KeyOf(s'.db.tasks[i]) in s'.w.remote
      ensures Carries(s', i)
    {
      EffectPresent(s, id, s', i);
    }
  }

  /** What else an effect leaves alone. */
  lemma EffectKeepsRest(s: System, id: TaskId, s': System)
    requires Core(s) && EffectRule(s, id, s')
    ensures Ids(s') && States(s') && LiveOccupies(s') && OlderSettled(s') && LogOrdered(s') && s'.db == s.db
  {
  }

  lemma EffectKeepsCore(s: System, id: TaskId, s': System)
    requires Core(s) && EffectRule(s, id, s')
    ensures Core(s')
  {
    EffectIsLast(s, id, s');
    EffectKeepsRemote(s, id, s');
    EffectKeepsRest(s, id, s');
  }
}
