/** What the controller concludes from its task history agrees with the nodes, for good: device
 * retirement, old AWG peers, and the release of a deleted account.
 */
module Retirement {
  import opened Tables
  import opened OutboxRun
  import opened OutboxInvariants
  import opened OutboxTables
  import opened OutboxSteps
  import opened OutboxRecord
  import opened OutboxTheorems

  predicate OnKey(db: Db, i: TaskId, k: PeerKey) { i in db.tasks && KeyOf(db.tasks[i]) == k }

  predicate Removes(db: Db, i: TaskId, k: PeerKey) {
    OnKey(db, i, k) && db.tasks[i].action.Delete? && db.tasks[i].status.Succeeded?
  }

  /** A confirmed removal newer than row e. */
  ghost predicate Covered(db: Db, e: TaskId, k: PeerKey)
    requires e in db.tasks
  {
    exists t :: Removes(db, t, k) && db.tasks[e].revision < db.tasks[t].revision
  }

  /** Every ensure ever recorded for the peer is followed by a confirmed removal. */
  ghost predicate Clean(db: Db, k: PeerKey) {
    forall e :: OnKey(db, e, k) && db.tasks[e].action.Ensure? ==> Covered(db, e, k)
  }

  /** The name is out of service: it is on record, and no active device has it. */
  ghost predicate Dead(db: Db, p: Protocol, name: Name) {
    (forall d :: d in db.devices && db.devices[d].status.Active? ==> NameOf(db.devices[d], p) != name) &&
    ((exists i :: i in db.tasks && db.tasks[i].protocol == p && db.tasks[i].name == name) ||
     (exists d :: d in db.devices && NameOf(db.devices[d], p) == name))
  }

  lemma CleanIsGone(s: System, k: PeerKey)
    requires Inv(s) && Clean(s.db, k)
    ensures k !in s.w.remote
  {
  }

  /** A device's new name was free; otherwise its names and its way out of service stay. */
  ghost predicate DevicesPersist(db: Db, db': Db, p: Protocol) {
    (forall d :: d in db'.devices && db'.devices[d].status.Active? ==>
       FreshName(db, p, NameOf(db'.devices[d], p)) ||
       (d in db.devices && db.devices[d].status.Active? && NameOf(db.devices[d], p) == NameOf(db'.devices[d], p))) &&
    (forall d :: d in db.devices && !db.devices[d].status.Active? ==>
       d in db'.devices && NameOf(db'.devices[d], p) == NameOf(db.devices[d], p))
  }

  lemma SameNamesPersist(db: Db, db': Db, p: Protocol)
    requires SameNames(db, db')
    ensures DevicesPersist(db, db', p)
  {
  }

  lemma NamingPersists(s: System, a: Action, s': System, p: Protocol)
    requires (a.AddDevice? || a.RotateAwg?) && Next(s, a, s')
    ensures DevicesPersist(s.db, s'.db, p)
  {
  }

  lemma StepDevicesPersist(s: System, a: Action, s': System, p: Protocol)
    requires Inv(s) && Next(s, a, s')
    ensures DevicesPersist(s.db, s'.db, p)
  {
    if a.AddDevice? || a.RotateAwg? { NamingPersists(s, a, s', p); }
    else if OnTasks(a) { TaskSteps(s, a, s'); }
    else if OnOthers(a) { Asides(s, a, s'); SameNamesPersist(s.db, s'.db, p); }
    else if a.BeginDeletion? { BeginFrames(s, a.p, s'); SameNamesPersist(s.db, s'.db, p); }
    else { assert s'.db.devices == s.db.devices; }
  }

  /** Only an active device's name is ever ensured. */
  ghost predicate EnsuresActive(db: Db, db': Db) {
    forall i :: i in db'.tasks && i !in db.tasks && db'.tasks[i].action.Ensure? ==>
      db'.tasks[i].slot in db.devices && db.devices[db'.tasks[i].slot].status.Active? &&
      NameOf(db.devices[db'.tasks[i].slot], db'.tasks[i].protocol) == db'.tasks[i].name
  }

  lemma RecordEnsuresActive(s: System, p: ProfileId, op: OpId, made: map<TaskId, Task>, s': System)
    requires Recorded(s, p, op, made, s')
    ensures EnsuresActive(s.db, s'.db)
  {
  }

  lemma StepEnsuresActive(s: System, a: Action, s': System)
    requires Inv(s) && Next(s, a, s')
    ensures EnsuresActive(s.db, s'.db)
  {
    if OnTasks(a) { TaskSteps(s, a, s'); }
    else if a.RecordOp? { RecordedIs(s, a, s'); RecordEnsuresActive(s, a.p, a.op, a.made, s'); }
    else { assert s'.db.tasks == s.db.tasks; }
  }

  /** What every step of a run does to rows and names. */
  ghost predicate Advances(db: Db, db': Db) {
    Persists(db, db') && EnsuresActive(db, db') && DevicesPersist(db, db', Awg) && DevicesPersist(db, db', Xray)
  }

  lemma StepAdvances(s: System, a: Action, s': System)
    requires Inv(s) && Next(s, a, s')
    ensures Advances(s.db, s'.db)
  {
    StepPersists(s, a, s');
    StepEnsuresActive(s, a, s');
    StepDevicesPersist(s, a, s', Awg);
    StepDevicesPersist(s, a, s', Xray);
  }

  lemma AdvancesAt(r: Run, i: nat)
    requires IsRun(r) && 0 < i < |r.states|
    ensures Advances(r.states[i - 1].db, r.states[i].db)
  {
    Reachable(r, i - 1);
    assert StepAt(r, i - 1);
    StepAdvances(r.states[i - 1], r.actions[i - 1], r.states[i]);
  }

  /** The peer is out of service for good. */
  ghost predicate Out(db: Db, k: PeerKey) { Dead(db, k.protocol, k.name) && Clean(db, k) }

  lemma StaysOut(db: Db, db': Db, k: PeerKey)
    requires Advances(db, db') && Out(db, k)
    ensures Out(db', k)
  {
  }

  lemma OutAt(r: Run, i: nat, k: PeerKey)
    requires IsRun(r) && 0 < i < |r.states| && Out(r.states[i - 1].db, k)
    ensures Out(r.states[i].db, k)
  {
    AdvancesAt(r, i);
    StaysOut(r.states[i - 1].db, r.states[i].db, k);
  }

  lemma {:induction false} OutLater(r: Run, i: nat, j: nat, k: PeerKey)
    requires IsRun(r) && i <= j < |r.states| && Out(r.states[i].db, k)
    ensures Out(r.states[j].db, k)
    decreases j
  {
    if i == j {
    } else {
      OutLater(r, i, j - 1, k);
      OutAt(r, j, k);
    }
  }

  /** Once every ensure of a dead name is covered, the peer is absent for the rest of the run. */
  lemma GoneForGood(r: Run, i: nat, j: nat, k: PeerKey)
    requires IsRun(r) && i <= j < |r.states| && Out(r.states[i].db, k)
    ensures k !in r.states[j].w.remote
  {
    OutLater(r, i, j, k);
    Reachable(r, j);
    CleanIsGone(r.states[j], k);
  }

  // ----- The newest row of a slot on a node -----

  /** Among the rows of a slot, the one of its node and protocol that the descending query lists first. */
  ghost predicate NewestOnLine(tasks: map<TaskId, Task>, p: ProfileId, slot: DeviceId, id: TaskId) {
    InSlot(tasks, p, slot, id) &&
    forall j :: InSlot(tasks, p, slot, j) && tasks[j].node == tasks[id].node && tasks[j].protocol == tasks[id].protocol && j != id
      ==> After(tasks, id, j)
  }

  lemma {:induction false} LastOf(tasks: map<TaskId, Task>, ids: set<TaskId>, i: TaskId) returns (m: TaskId)
    requires ids <= tasks.Keys && i in ids
    ensures m in ids && forall j :: j in ids && j != m ==> After(tasks, m, j)
    decreases |ids|
  {
    if k :| k in ids && k != i {
      var rest := LastOf(tasks, ids - {k}, i);
      m := if After(tasks, k, rest) then k else rest;
      assert forall j :: j in ids ==> j == k || j in ids - {k};
    } else {
      m := i;
    }
  }

  /** On every line where the slot has a row there is a newest one. */
  lemma LineHasNewest(tasks: map<TaskId, Task>, p: ProfileId, slot: DeviceId, i: TaskId) returns (m: TaskId)
    requires InSlot(tasks, p, slot, i)
    ensures NewestOnLine(tasks, p, slot, m) && tasks[m].node == tasks[i].node && tasks[m].protocol == tasks[i].protocol
    ensures m == i || After(tasks, m, i)
  {
    var ids := set j | j in tasks && InSlot(tasks, p, slot, j) && tasks[j].node == tasks[i].node &&
                       tasks[j].protocol == tasks[i].protocol;
    m := LastOf(tasks, ids, i);
  }

  lemma NodeHasNewest(tasks: map<TaskId, Task>, p: ProfileId, slot: DeviceId, i: TaskId) returns (m: TaskId)
    requires InSlot(tasks, p, slot, i)
    ensures NewestOnNode(tasks, p, slot, m) && tasks[m].node == tasks[i].node && (m == i || After(tasks, m, i))
  {
    var ids := set j | j in tasks && InSlot(tasks, p, slot, j) && tasks[j].node == tasks[i].node;
    m := LastOf(tasks, ids, i);
  }

  // ----- Device retirement -----

  /** The device's peer key on a node. */
  function PeerOf(db: Db, d: DeviceId, n: NodeKey, p: Protocol): PeerKey
    requires d in db.devices
  {
    PeerKey(n, p, NameOf(db.devices[d], p))
  }

  /** settle_deletions at step i retires device d. */
  ghost predicate RetiresAt(r: Run, i: nat, d: DeviceId) {
    i < |r.actions| < |r.states| && r.actions[i].SettleDeletions? && d in r.states[i].db.devices &&
    r.states[i].db.devices[d].status.Deleting? && d in r.states[i + 1].db.devices && r.states[i + 1].db.devices[d].status.Retired?
  }

  /** On every node and for every protocol, the device's newest row is a confirmed removal. This is what
      settle_deletions would check if it kept one row per node and protocol. */
  ghost predicate EachLineRemoved(db: Db, d: DeviceId)
    requires d in db.devices
  {
    forall i :: NewestOnLine(db.tasks, db.devices[d].profile, d, i) ==> Removed(db, i)
  }

  /** The device's rows on any one node are all for one protocol. */
  ghost predicate OneProtocol(db: Db, d: DeviceId)
    requires d in db.devices
  {
    forall i, j | InSlot(db.tasks, db.devices[d].profile, d, i) && InSlot(db.tasks, db.devices[d].profile, d, j)
      :: db.tasks[i].node == db.tasks[j].node ==> db.tasks[i].protocol == db.tasks[j].protocol
  }

  lemma OneProtocolSuffices(db: Db, d: DeviceId)
    requires d in db.devices && OneProtocol(db, d) && NewestRemoved(db, db.devices[d].profile, d)
    ensures EachLineRemoved(db, d)
  {
  }

  /** A confirmed device has no ensure left uncovered on a node that was not verified empty. */
  lemma ConfirmedIsClean(s: System, d: DeviceId, n: NodeKey, p: Protocol)
    requires Inv(s) && d in s.db.devices && EachLineRemoved(s.db, d) && !IsVerified(s.db, n)
    ensures Clean(s.db, PeerKey(n, p, NameOf(s.db.devices[d], p)))
  {
    var k := PeerKey(n, p, NameOf(s.db.devices[d], p));
    forall e | OnKey(s.db, e, k) && s.db.tasks[e].action.Ensure?
      ensures Covered(s.db, e, k)
    {
      assert Bears(s.db, e, d);
      assert DeviceRow(s.db, e);
      assert InSlot(s.db.tasks, s.db.devices[d].profile, d, e);
      var t := LineHasNewest(s.db.tasks, s.db.devices[d].profile, d, e);
      assert Removed(s.db, t);
      assert Follows(s.db, e, t);
      assert Bears(s.db, t, d);
      assert Removes(s.db, t, k);
    }
  }

  /** Verified nodes carry nothing. */
  ghost predicate VerifiedEmpty(s: System) {
    (forall k :: k in s.w.remote ==> !IsVerified(s.db, k.node)) &&
    (forall i :: i in s.db.tasks && IsVerified(s.db, s.db.tasks[i].node) ==> !Live(s.w, i) && i !in s.w.held)
  }

  lemma RetireEmpties(s: System, n: NodeKey, s': System)
    requires Ids(s) && States(s) && LiveOccupies(s) && VerifiedEmpty(s) && RetireNodeRule(s, n, s')
    ensures VerifiedEmpty(s')
  {
    forall i | i in s.db.tasks && s.db.tasks[i].node == n
      ensures !Live(s.w, i) && i !in s.w.held
    {
      assert i !in AbandonSet(s.db, n);
    }
  }

  ghost predicate SameVerified(db: Db, db': Db) { forall n :: IsVerified(db', n) <==> IsVerified(db, n) }

  lemma EvolvesVerified(s: System, s': System)
    requires Core(s) && VerifiedEmpty(s) && Evolves(s, s') && SameVerified(s.db, s'.db)
    ensures VerifiedEmpty(s')
  {
  }

  lemma StepSameVerified(s: System, a: Action, s': System)
    requires Next(s, a, s') && !a.RetireNode?
    ensures SameVerified(s.db, s'.db)
  {
  }

  lemma EffectVerified(s: System, id: TaskId, s': System)
    requires VerifiedEmpty(s) && EffectRule(s, id, s')
    ensures VerifiedEmpty(s')
  {
  }

  lemma OtherVerified(s: System, a: Action, s': System)
    requires Inv(s) && VerifiedEmpty(s) && Next(s, a, s') && !a.RetireNode? && !a.Effect?
    ensures VerifiedEmpty(s')
  {
    StepSameVerified(s, a, s');
    StepEvolves(s, a, s');
    EvolvesVerified(s, s');
  }

  lemma StepVerified(s: System, a: Action, s': System)
    requires Inv(s) && VerifiedEmpty(s) && Next(s, a, s')
    ensures VerifiedEmpty(s')
  {
    if a.RetireNode? { RetireEmpties(s, a.n, s'); }
    else if a.Effect? { EffectVerified(s, a.id, s'); }
    else { OtherVerified(s, a, s'); }
  }

  lemma VerifiedAt(r: Run, i: nat)
    requires IsRun(r) && 0 < i < |r.states| && VerifiedEmpty(r.states[i - 1])
    ensures VerifiedEmpty(r.states[i])
  {
    Reachable(r, i - 1);
    assert StepAt(r, i - 1);
    StepVerified(r.states[i - 1], r.actions[i - 1], r.states[i]);
  }

  lemma VerifiedAtStart(s: System)
    requires Init(s)
    ensures VerifiedEmpty(s)
  {
  }

  lemma {:induction false} VerifiedStaysEmpty(r: Run, i: nat)
    requires IsRun(r) && i < |r.states|
    ensures VerifiedEmpty(r.states[i])
  {
    if i == 0 {
      VerifiedAtStart(r.states[0]);
    } else {
      VerifiedStaysEmpty(r, i - 1);
      VerifiedAt(r, i);
    }
  }

  lemma VerifiedKept(r: Run, i: nat, n: NodeKey)
    requires StepAt(r, i) && IsVerified(r.states[i].db, n)
    ensures IsVerified(r.states[i + 1].db, n)
  {
    if !r.actions[i].RetireNode? { StepSameVerified(r.states[i], r.actions[i], r.states[i + 1]); }
  }

  lemma {:induction false} VerifiedForGood(r: Run, i: nat, j: nat, n: NodeKey)
    requires IsRun(r) && i <= j < |r.states| && IsVerified(r.states[i].db, n)
    ensures IsVerified(r.states[j].db, n)
    decreases j
  {
    if i == j {
    } else {
      VerifiedForGood(r, i, j - 1, n);
      VerifiedKept(r, j - 1, n);
    }
  }

  /** Retirement is sound: if settle_deletions retires a device whose newest row is a confirmed removal on every
      node and protocol, the device's peer is on no node, then or at any later time. */
  lemma RetirementIsSound(r: Run, i: nat, j: nat, d: DeviceId, n: NodeKey, p: Protocol)
    requires IsRun(r) && RetiresAt(r, i, d) && i < j < |r.states| && EachLineRemoved(r.states[i].db, d)
    ensures PeerOf(r.states[i].db, d, n, p) !in r.states[j].w.remote
  {
    var s := r.states[i];
    Reachable(r, i);
    if IsVerified(s.db, n) {
      VerifiedForGood(r, i, j, n);
      VerifiedStaysEmpty(r, j);
    } else {
      ConfirmedIsClean(s, d, n, p);
      InactiveIsDead(s.db, d, p);
      GoneForGood(r, i, j, PeerKey(n, p, NameOf(s.db.devices[d], p)));
    }
  }

  lemma InactiveIsDead(db: Db, d: DeviceId, p: Protocol)
    requires DistinctNames(db) && d in db.devices && !db.devices[d].status.Active?
    ensures Dead(db, p, NameOf(db.devices[d], p))
  {
  }

  /** What the tables tell about one peer of a node still in service, when the superseded commands about it never
      took effect: it is there exactly when some confirmed ensure has no newer confirmed removal. */
  lemma PresenceFromTables(s: System, k: PeerKey)
    requires Inv(s) && k.node !in s.db.retirements
    requires forall i :: OnKey(s.db, i, k) && i in s.w.applied ==> s.db.tasks[i].status.Succeeded?
    ensures k in s.w.remote <==> LeftOver(s.db, k)
  {
    if k in s.w.remote {
      var e :| LastApplied(s, e) && KeyOf(s.db.tasks[e]) == k && s.db.tasks[e].action.Ensure?;
      assert OnKey(s.db, e, k);
    }
    if e :| OnKey(s.db, e, k) && s.db.tasks[e].action.Ensure? && s.db.tasks[e].status.Succeeded? && !Covered(s.db, e, k) {
      UncoveredIsPresent(s, e, k);
    }
  }

  /** An uncovered confirmed ensure leaves the newest applied command on the peer an ensure. */
  lemma {:induction false} UncoveredIsPresent(s: System, e: TaskId, k: PeerKey)
    requires Inv(s) && k.node !in s.db.retirements && OnKey(s.db, e, k) && s.db.tasks[e].action.Ensure?
    requires s.db.tasks[e].status.Succeeded? && !Covered(s.db, e, k)
    requires forall i :: OnKey(s.db, i, k) && i in s.w.applied ==> s.db.tasks[i].status.Succeeded?
    ensures k in s.w.remote
    decreases set i | i in s.db.tasks && OnKey(s.db, i, k) && s.db.tasks[i].revision > s.db.tasks[e].revision
  {
    assert e in s.w.applied;
    if !LastApplied(s, e) {
      var f :| f in s.w.applied && f in s.db.tasks && KeyOf(s.db.tasks[f]) == k && s.db.tasks[f].revision > s.db.tasks[e].revision;
      assert OnKey(s.db, f, k);
      var above := set i | i in s.db.tasks && OnKey(s.db, i, k) && s.db.tasks[i].revision > s.db.tasks[e].revision;
      assert f in above;
      UncoveredIsPresent(s, f, k);
    }
  }

  /** The check the code makes is enough for a device whose rows on each node are for one protocol. */
  lemma OneProtocolRetirementIsSound(r: Run, i: nat, j: nat, d: DeviceId, n: NodeKey, p: Protocol)
    requires IsRun(r) && RetiresAt(r, i, d) && i < j < |r.states| && OneProtocol(r.states[i].db, d)
    ensures PeerOf(r.states[i].db, d, n, p) !in r.states[j].w.remote
  {
    assert StepAt(r, i);
    OneProtocolSuffices(r.states[i].db, d);
    RetirementIsSound(r, i, j, d, n, p);
  }

  /** Before a node is retired as verified, its revocations alone have removed every device's peer from it. */
  lemma VerifiedWasRevoked(r: Run, i: nat, d: DeviceId, p: Protocol)
    requires IsRun(r) && i < |r.actions| && r.actions[i].RetireNode? && d in r.states[i].db.devices
    ensures PeerOf(r.states[i].db, d, r.actions[i].n, p) !in r.states[i].w.remote
  {
    Reachable(r, i);
    GuardHolds(r, i);
    RevokedIsGone(r.states[i], d, r.actions[i].n, p);
  }

  /** The same holds of every old AWG peer whose removal the node was asked for. */
  lemma VerifiedWasRevokedOld(r: Run, i: nat, s: DeviceId, asked: TaskId)
    requires IsRun(r) && i < |r.actions| && r.actions[i].RetireNode? && s in r.states[i].db.peers
    requires InSlot(r.states[i].db.tasks, r.states[i].db.peers[s].profile, s, asked)
    requires r.states[i].db.tasks[asked].node == r.actions[i].n
    ensures PeerKey(r.actions[i].n, Awg, r.states[i].db.peers[s].name) !in r.states[i].w.remote
  {
    Reachable(r, i);
    GuardHolds(r, i);
    OldPeerRevoked(r.states[i], r.actions[i].n, s, asked);
  }

  lemma OldPeerRevoked(st: System, n: NodeKey, s: DeviceId, asked: TaskId)
    requires Inv(st) && RevocationsDone(st.db, n) && n !in st.db.retirements && s in st.db.peers
    requires InSlot(st.db.tasks, st.db.peers[s].profile, s, asked) && st.db.tasks[asked].node == n
    ensures PeerKey(n, Awg, st.db.peers[s].name) !in st.w.remote
  {
    var t := NodeHasNewest(st.db.tasks, st.db.peers[s].profile, s, asked);
    NewestOfSlot(st.db.tasks, st.db.peers[s].profile, s, t);
    NewestRequestIsLast(st, s, t, PeerKey(n, Awg, st.db.peers[s].name));
    CleanIsGone(st, PeerKey(n, Awg, st.db.peers[s].name));
  }

  lemma NewestOfSlot(tasks: map<TaskId, Task>, p: ProfileId, slot: DeviceId, t: TaskId)
    requires NewestOnNode(tasks, p, slot, t)
    ensures LatestRow(tasks, t)
  {
    forall j | j in tasks && SameSlotLine(tasks[j], tasks[t])
      ensures tasks[j].revision <= tasks[t].revision
    {
      assert InSlot(tasks, p, slot, j);
    }
  }

  lemma GuardHolds(r: Run, i: nat)
    requires IsRun(r) && i < |r.actions| && r.actions[i].RetireNode?
    ensures RevocationsDone(r.states[i].db, r.actions[i].n) && r.actions[i].n !in r.states[i].db.retirements
  {
    assert StepAt(r, i);
  }

  lemma RevokedIsGone(s: System, d: DeviceId, n: NodeKey, p: Protocol)
    requires Inv(s) && d in s.db.devices && RevocationsDone(s.db, n)
    ensures PeerOf(s.db, d, n, p) !in s.w.remote
  {
    forall e | OnKey(s.db, e, PeerOf(s.db, d, n, p)) && s.db.tasks[e].action.Ensure?
      ensures Covered(s.db, e, PeerOf(s.db, d, n, p))
    {
      RevokedIsCovered(s, d, PeerOf(s.db, d, n, p), e);
    }
    CleanIsGone(s, PeerOf(s.db, d, n, p));
  }

  lemma RevokedIsCovered(s: System, d: DeviceId, k: PeerKey, e: TaskId)
    requires Inv(s) && d in s.db.devices && RevocationsDone(s.db, k.node) && k.name == NameOf(s.db.devices[d], k.protocol)
    requires OnKey(s.db, e, k) && s.db.tasks[e].action.Ensure?
    ensures Covered(s.db, e, k)
  {
    assert Bears(s.db, e, d);
    assert DeviceRow(s.db, e);
    var t := LineHasNewest(s.db.tasks, s.db.devices[d].profile, d, e);
    NewestIsLatest(s.db.tasks, s.db.devices[d].profile, d, t);
    assert Follows(s.db, e, t);
    assert Bears(s.db, t, d);
    assert Removes(s.db, t, k);
  }

  lemma NewestIsLatest(tasks: map<TaskId, Task>, p: ProfileId, slot: DeviceId, t: TaskId)
    requires NewestOnLine(tasks, p, slot, t)
    ensures LatestRow(tasks, t)
  {
    forall j | j in tasks && SameSlotLine(tasks[j], tasks[t])
      ensures tasks[j].revision <= tasks[t].revision
    {
      assert InSlot(tasks, p, slot, j);
    }
  }

  // ----- Exactly when retirement is sound -----

  /** The peer is absent and nothing can bring it back: its name is out of service and no ensure about it is outstanding. */
  ghost predicate Finished(s: System, k: PeerKey) {
    Dead(s.db, k.protocol, k.name) && k !in s.w.remote &&
    forall e :: OnKey(s.db, e, k) && s.db.tasks[e].action.Ensure? ==> Settled(s, e)
  }

  lemma EnsureStaysSettled(s: System, s': System, k: PeerKey, e: TaskId)
    requires Ids(s) && States(s) && Evolves(s, s') && Advances(s.db, s'.db) && Finished(s, k)
    requires OnKey(s'.db, e, k) && s'.db.tasks[e].action.Ensure?
    ensures Settled(s', e)
  {
    if e in s.db.tasks {
      assert SameRow(s.db.tasks[e], s'.db.tasks[e]);
      assert OnKey(s.db, e, k);
      SettledForGood(s, s', e);
    }
  }

  lemma DeadStays(db: Db, db': Db, k: PeerKey)
    requires Advances(db, db') && Dead(db, k.protocol, k.name)
    ensures Dead(db', k.protocol, k.name)
  {
  }

  lemma EffectFinished(s: System, id: TaskId, s': System, k: PeerKey)
    requires EffectRule(s, id, s') && Finished(s, k)
    ensures Finished(s', k)
  {
    assert OnKey(s.db, id, KeyOf(s.db.tasks[id]));
  }

  lemma OtherFinished(s: System, a: Action, s': System, k: PeerKey)
    requires Inv(s) && Next(s, a, s') && !a.Effect? && Finished(s, k)
    ensures Finished(s', k)
  {
    StepEvolves(s, a, s');
    StepAdvances(s, a, s');
    EvolvesFinished(s, s', k);
  }

  lemma EvolvesFinished(s: System, s': System, k: PeerKey)
    requires Ids(s) && States(s) && Evolves(s, s') && Advances(s.db, s'.db) && Finished(s, k)
    ensures Finished(s', k)
  {
    DeadStays(s.db, s'.db, k);
    forall e | OnKey(s'.db, e, k) && s'.db.tasks[e].action.Ensure?
      ensures Settled(s', e)
    {
      EnsureStaysSettled(s, s', k, e);
    }
  }

  lemma StepFinished(s: System, a: Action, s': System, k: PeerKey)
    requires Inv(s) && Next(s, a, s') && Finished(s, k)
    ensures Finished(s', k)
  {
    if a.Effect? { EffectFinished(s, a.id, s', k); } else { OtherFinished(s, a, s', k); }
  }

  lemma FinishedAt(r: Run, i: nat, k: PeerKey)
    requires IsRun(r) && 0 < i < |r.states| && Finished(r.states[i - 1], k)
    ensures Finished(r.states[i], k)
  {
    Reachable(r, i - 1);
    assert StepAt(r, i - 1);
    StepFinished(r.states[i - 1], r.actions[i - 1], r.states[i], k);
  }

  lemma {:induction false} FinishedForGood(r: Run, i: nat, j: nat, k: PeerKey)
    requires IsRun(r) && i <= j < |r.states| && Finished(r.states[i], k)
    ensures Finished(r.states[j], k)
    decreases j
  {
    if i == j {
    } else {
      FinishedForGood(r, i, j - 1, k);
      FinishedAt(r, j, k);
    }
  }

  /** When a deletion is confirmed, no command about the device is outstanding on a node in service. */
  lemma ConfirmedIsSettled(s: System, d: DeviceId, k: PeerKey, e: TaskId)
    requires Inv(s) && d in s.db.devices && NothingUncertain(s.db, s.db.devices[d].profile, d) && k.node !in s.db.retirements
    requires k.name == NameOf(s.db.devices[d], k.protocol) && OnKey(s.db, e, k)
    ensures Settled(s, e)
  {
    assert Bears(s.db, e, d);
    assert DeviceRow(s.db, e);
    assert InSlot(s.db.tasks, s.db.devices[d].profile, d, e);
  }

  /** A retired device's peer stays as retirement found it: once absent from a node in service, it is absent for good. */
  lemma RetiredStaysAbsent(r: Run, i: nat, j: nat, d: DeviceId, n: NodeKey, p: Protocol)
    requires IsRun(r) && RetiresAt(r, i, d) && n !in r.states[i].db.retirements && i <= j < |r.states|
    requires PeerOf(r.states[i].db, d, n, p) !in r.states[i].w.remote
    ensures PeerOf(r.states[i].db, d, n, p) !in r.states[j].w.remote
  {
    Reachable(r, i);
    RetiredWasConfirmed(r, i, d);
    ConfirmedIsFinished(r.states[i], d, n, p);
    FinishedForGood(r, i, j, PeerOf(r.states[i].db, d, n, p));
  }

  lemma RetiredWasConfirmed(r: Run, i: nat, d: DeviceId)
    requires IsRun(r) && RetiresAt(r, i, d)
    ensures NothingUncertain(r.states[i].db, r.states[i].db.devices[d].profile, d)
  {
    assert StepAt(r, i);
  }

  lemma ConfirmedIsFinished(s: System, d: DeviceId, n: NodeKey, p: Protocol)
    requires Inv(s) && d in s.db.devices && !s.db.devices[d].status.Active? && n !in s.db.retirements
    requires NothingUncertain(s.db, s.db.devices[d].profile, d) && PeerOf(s.db, d, n, p) !in s.w.remote
    ensures Finished(s, PeerOf(s.db, d, n, p))
  {
    InactiveIsDead(s.db, d, p);
    forall e | OnKey(s.db, e, PeerOf(s.db, d, n, p))
      ensures Settled(s, e)
    {
      ConfirmedIsSettled(s, d, PeerOf(s.db, d, n, p), e);
    }
  }

  /** Some confirmed ensure of the peer has no newer confirmed removal. */
  ghost predicate LeftOver(db: Db, k: PeerKey) {
    exists e :: OnKey(db, e, k) && db.tasks[e].action.Ensure? && db.tasks[e].status.Succeeded? && !Covered(db, e, k)
  }

  /** Exactly when settle_deletions is right about a node in service, if superseded commands about the peer had no
      effect: the peer is absent in every later state if and only if no confirmed ensure lacks a newer confirmed
      removal. */
  lemma RetirementExactly(r: Run, i: nat, d: DeviceId, n: NodeKey, p: Protocol)
    requires IsRun(r) && RetiresAt(r, i, d) && n !in r.states[i].db.retirements
    requires forall e :: OnKey(r.states[i].db, e, PeerOf(r.states[i].db, d, n, p)) && e in r.states[i].w.applied ==>
               r.states[i].db.tasks[e].status.Succeeded?
    ensures (forall j :: i < j < |r.states| ==> PeerOf(r.states[i].db, d, n, p) !in r.states[j].w.remote) <==>
            !LeftOver(r.states[i].db, PeerOf(r.states[i].db, d, n, p))
  {
    var k := PeerOf(r.states[i].db, d, n, p);
    Reachable(r, i);
    PresenceFromTables(r.states[i], k);
    SettleLeavesNodes(r, i);
    if k !in r.states[i].w.remote {
      forall j | i < j < |r.states|
        ensures k !in r.states[j].w.remote
      {
        RetiredStaysAbsent(r, i, j, d, n, p);
      }
    }
  }

  lemma SettleLeavesNodes(r: Run, i: nat)
    requires IsRun(r) && i < |r.actions| && r.actions[i].SettleDeletions?
    ensures r.states[i + 1].w == r.states[i].w
  {
    assert StepAt(r, i);
  }

  // ----- Peers left behind by an AWG key rotation -----

  /** Before step i, task t was sent at step m, when every other row about the peer k had been settled. */
  ghost predicate SentLast(r: Run, m: nat, t: TaskId, k: PeerKey, rows: Db) {
    m < |r.actions| < |r.states| && r.actions[m] == Dispatch(t) &&
    forall e :: OnKey(rows, e, k) && e != t ==> e in r.states[m].db.tasks && Settled(r.states[m], e)
  }

  /** An old peer is forgotten only when, on every node asked to remove it, the newest request is a confirmed removal
      that was sent after every other command about that peer had finished; it is then gone from that node for the rest
      of the run. */
  lemma ForgottenPeerIsGone(r: Run, i: nat, j: nat, s: DeviceId, asked: TaskId)
    requires IsRun(r) && i < |r.actions| && r.actions[i].SettleOldPeers? && i < j < |r.states|
    requires s in r.states[i].db.peers && s !in r.states[i + 1].db.peers
    requires InSlot(r.states[i].db.tasks, r.states[i].db.peers[s].profile, s, asked)
    ensures PeerKey(r.states[i].db.tasks[asked].node, Awg, r.states[i].db.peers[s].name) !in r.states[j].w.remote
    ensures var db := r.states[i].db; var k := KeyOf(db.tasks[asked]);
      IsVerified(db, k.node) ||
      exists t: TaskId, m: nat :: NewestOnNode(db.tasks, db.peers[s].profile, s, t) && Removes(db, t, k) && m < i && SentLast(r, m, t, k, db)
  {
    var st := r.states[i];
    Reachable(r, i);
    assert StepAt(r, i);
    var n := st.db.tasks[asked].node;
    var k := PeerKey(n, Awg, st.db.peers[s].name);
    assert InOldSlot(st.db, asked, s);
    if IsVerified(st.db, n) {
      VerifiedForGood(r, i, j, n);
      VerifiedStaysEmpty(r, j);
    } else {
      var t := NodeHasNewest(st.db.tasks, st.db.peers[s].profile, s, asked);
      NewestRequestIsLast(st, s, t, k);
      var m := SentAfterOthers(r, i, t, k);
      DeadOldName(st.db, s, asked);
      GoneForGood(r, i, j, k);
    }
  }

  /** A task in the log of calls was sent at some step. */
  lemma {:induction false} SentAt(r: Run, i: nat, t: TaskId) returns (m: nat)
    requires IsRun(r) && i < |r.states| && t in r.states[i].w.dispatched
    ensures m < i && r.actions[m] == Dispatch(t)
  {
    if i == 0 {
      assert false;
    } else {
      SentOrBefore(r, i, t);
      if t in r.states[i - 1].w.dispatched { m := SentAt(r, i - 1, t); } else { m := i - 1; }
    }
  }

  lemma SentOrBefore(r: Run, i: nat, t: TaskId)
    requires IsRun(r) && 0 < i < |r.states| && t in r.states[i].w.dispatched
    ensures t in r.states[i - 1].w.dispatched || r.actions[i - 1] == Dispatch(t)
  {
    assert StepAt(r, i - 1);
  }

  /** A row older than t on its line was recorded before t. */
  lemma {:induction false} OlderRecordedFirst(r: Run, m: nat, i: nat, e: TaskId, t: TaskId)
    requires IsRun(r) && m <= i < |r.states| && t in r.states[m].db.tasks && Overtakes(r.states[i].db, e, t)
    ensures e in r.states[m].db.tasks
    decreases i
  {
    if m == i {
    } else {
      RunPersists(r, m, i - 1);
      OlderRowsOnly(r, i, e, t);
      OlderRecordedFirst(r, m, i - 1, e, t);
    }
  }

  lemma OlderRowsOnly(r: Run, i: nat, e: TaskId, t: TaskId)
    requires IsRun(r) && 0 < i < |r.states| && t in r.states[i - 1].db.tasks && Overtakes(r.states[i].db, e, t)
    ensures Overtakes(r.states[i - 1].db, e, t)
  {
    Reachable(r, i - 1);
    assert StepAt(r, i - 1);
    StepOlderRows(r.states[i - 1], r.actions[i - 1], r.states[i], e, t);
  }

  lemma StepOlderRows(s: System, a: Action, s': System, e: TaskId, t: TaskId)
    requires Inv(s) && Next(s, a, s') && t in s.db.tasks && Overtakes(s'.db, e, t)
    ensures Overtakes(s.db, e, t)
  {
    RowsEvolve(s, a, s');
    EvolvesOlderRows(s, s', e, t);
  }

  lemma EvolvesOlderRows(s: System, s': System, e: TaskId, t: TaskId)
    requires OldRows(s, s') && NewRows(s, s') && t in s.db.tasks && Overtakes(s'.db, e, t)
    ensures Overtakes(s.db, e, t)
  {
    assert SameRow(s.db.tasks[t], s'.db.tasks[t]);
    if e in s.db.tasks { assert SameRow(s.db.tasks[e], s'.db.tasks[e]); }
  }

  /** The newest row about a peer, once sent, was sent when all others were settled. */
  lemma SentAfterOthers(r: Run, i: nat, t: TaskId, k: PeerKey) returns (m: nat)
    requires IsRun(r) && i < |r.states| && t in r.states[i].w.dispatched && OnKey(r.states[i].db, t, k)
    requires forall e :: OnKey(r.states[i].db, e, k) && e != t ==> Overtakes(r.states[i].db, e, t)
    ensures m < i && SentLast(r, m, t, k, r.states[i].db)
  {
    m := SentAt(r, i, t);
    forall e | OnKey(r.states[i].db, e, k) && e != t
      ensures e in r.states[m].db.tasks && Settled(r.states[m], e)
    {
      SettledWhenSent(r, m, i, e, t);
    }
  }

  lemma SettledWhenSent(r: Run, m: nat, i: nat, e: TaskId, t: TaskId)
    requires IsRun(r) && m < i < |r.states| && r.actions[m] == Dispatch(t) && Overtakes(r.states[i].db, e, t)
    ensures e in r.states[m].db.tasks && Settled(r.states[m], e)
  {
    Reachable(r, m);
    assert StepAt(r, m);
    OlderRecordedFirst(r, m, i, e, t);
    RunPersists(r, m, i);
    var s := r.states[m];
    assert SameRow(s.db.tasks[e], r.states[i].db.tasks[e]) && SameRow(s.db.tasks[t], r.states[i].db.tasks[t]);
    assert Sent(s.w, t) && Overtakes(s.db, e, t);
  }

  /** The newest request of an old peer's slot on a node is the newest row about that peer there. */
  lemma NewestRequestIsLast(st: System, s: DeviceId, t: TaskId, k: PeerKey)
    requires Inv(st) && s in st.db.peers && NewestOnNode(st.db.tasks, st.db.peers[s].profile, s, t) && Removed(st.db, t)
    requires !IsVerified(st.db, st.db.tasks[t].node) && k == PeerKey(st.db.tasks[t].node, Awg, st.db.peers[s].name)
    ensures Removes(st.db, t, k) && t in st.w.dispatched && Clean(st.db, k)
    ensures forall e :: OnKey(st.db, e, k) && e != t ==> Overtakes(st.db, e, t)
  {
    assert InOldSlot(st.db, t, s);
    assert t in st.w.applied;
    forall e | OnKey(st.db, e, k) && e != t
      ensures Overtakes(st.db, e, t)
    {
      assert About(st.db, e, s);
      if st.db.tasks[e].slot == s { assert InSlot(st.db.tasks, st.db.peers[s].profile, s, e); }
    }
    forall e | OnKey(st.db, e, k) && st.db.tasks[e].action.Ensure?
      ensures Covered(st.db, e, k)
    {
      assert Removes(st.db, t, k);
    }
  }

  lemma DeadOldName(db: Db, s: DeviceId, i: TaskId)
    requires Names(db) && s in db.peers && InOldSlot(db, i, s)
    ensures Dead(db, Awg, db.peers[s].name)
  {
  }

  // ----- Account release -----

  /** An account's identities are released only when every task of the current deletion operation of each profile it
      owns has succeeded. Those tasks are removals, and the peers they name are gone for the rest of the run. */
  lemma ReleaseIsSound(r: Run, i: nat, j: nat, a: AccountId, p: ProfileId, t: TaskId)
    requires IsRun(r) && i < |r.actions| && r.actions[i].SettleOwners? && i < j < |r.states|
    requires a in r.states[i].db.accounts && !r.states[i].db.accounts[a].deletion.Completed?
    requires a in r.states[i + 1].db.accounts && r.states[i + 1].db.accounts[a].deletion.Completed?
    requires Owns(r.states[i].db, a, p)
    ensures var db := r.states[i].db;
      p in db.deletions && db.deletions[p].Some? && db.deletions[p].value in db.ops && AllSucceeded(db, db.deletions[p].value) &&
      (t in db.tasks && db.tasks[t].op == db.deletions[p].value ==>
         db.tasks[t].action.Delete? && KeyOf(db.tasks[t]) !in r.states[j].w.remote)
  {
    var s := r.states[i];
    Reachable(r, i);
    ReleasedWasReleasable(r, i, a);
    assert Revoked(s.db, p);
    assert OpState(s, s.db.deletions[p].value);
    if t in s.db.tasks && s.db.tasks[t].op == s.db.deletions[p].value {
      RevokedIsClean(s, p, t);
      ReleasedIsDead(s, a, p, t);
      GoneForGood(r, i + 1, j, KeyOf(s.db.tasks[t]));
    }
  }

  lemma ReleasedWasReleasable(r: Run, i: nat, a: AccountId)
    requires IsRun(r) && i < |r.actions| && r.actions[i].SettleOwners?
    requires a in r.states[i].db.accounts && !r.states[i].db.accounts[a].deletion.Completed?
    requires a in r.states[i + 1].db.accounts && r.states[i + 1].db.accounts[a].deletion.Completed?
    ensures Releasable(r.states[i].db, a) && r.states[i + 1].db == SettleAccounts(r.states[i].db)
  {
    assert StepAt(r, i);
  }

  /** A deletion waits for the operation it was last pointed at. */
  lemma {:induction false} PointedAt(r: Run, i: nat, p: ProfileId) returns (m: nat)
    requires IsRun(r) && i < |r.states| && p in r.states[i].db.deletions && r.states[i].db.deletions[p].Some?
    ensures m < i && r.actions[m] == PointDeletion(p, r.states[i].db.deletions[p].value)
  {
    if i == 0 {
      assert false;
    } else {
      PointedNowOrBefore(r, i, p);
      if r.actions[i - 1] == PointDeletion(p, r.states[i].db.deletions[p].value) { m := i - 1; } else { m := PointedAt(r, i - 1, p); }
    }
  }

  lemma PointedNowOrBefore(r: Run, i: nat, p: ProfileId)
    requires IsRun(r) && 0 < i < |r.states| && p in r.states[i].db.deletions && r.states[i].db.deletions[p].Some?
    ensures r.actions[i - 1] == PointDeletion(p, r.states[i].db.deletions[p].value) ||
            (p in r.states[i - 1].db.deletions && r.states[i - 1].db.deletions[p] == r.states[i].db.deletions[p])
  {
    assert StepAt(r, i - 1);
  }

  /** A row of the present revision is about the peer its slot has. */
  lemma PresentRowNames(s: System, t: TaskId, p: ProfileId)
    requires Inv(s) && Present(s.db, t) && s.db.tasks[t].profile == p && s.db.tasks[t].slot in Peers(s.db, p, s.db.tasks[t].protocol)
    ensures s.db.tasks[t].name == Peers(s.db, p, s.db.tasks[t].protocol)[s.db.tasks[t].slot].name
  {
    var d := s.db.tasks[t].slot;
    if d in s.db.devices { assert Bears(s.db, t, d) && d !in s.db.peers; } else { assert InOldSlot(s.db, t, d); }
  }

  lemma PointCovers(r: Run, m: nat)
    requires IsRun(r) && m < |r.actions| && r.actions[m].PointDeletion?
    ensures var a := r.actions[m]; var db := r.states[m].db;
      OpCovers(db, a.p, a.op) && a.op in db.ops && a.p in db.profiles && db.ops[a.op].profile == a.p &&
      db.ops[a.op].revision == db.profiles[a.p].revision
  {
    assert StepAt(r, m);
  }

  /** When an account is released, every peer its profile had on a node that was actionable when the current deletion
      operation was recorded is gone for the rest of the run. Step m is that moment. */
  lemma ReleasedPeersAreGone(r: Run, i: nat, j: nat, a: AccountId, p: ProfileId) returns (m: nat)
    requires IsRun(r) && i < |r.actions| && r.actions[i].SettleOwners? && i < j < |r.states|
    requires a in r.states[i].db.accounts && !r.states[i].db.accounts[a].deletion.Completed?
    requires a in r.states[i + 1].db.accounts && r.states[i + 1].db.accounts[a].deletion.Completed?
    requires Owns(r.states[i].db, a, p)
    ensures m < i && p in r.states[i].db.deletions && r.states[i].db.deletions[p].Some?
    ensures r.actions[m] == PointDeletion(p, r.states[i].db.deletions[p].value)
    ensures forall n, protocol, slot | CoveredPeer(r.states[m].db, p, n, protocol, slot)
      :: PeerKey(n, protocol, Peers(r.states[m].db, p, protocol)[slot].name) !in r.states[j].w.remote
  {
    ReleaseIsSound(r, i, j, a, p, 0);
    m := PointedAt(r, i, p);
    forall n, protocol, slot | CoveredPeer(r.states[m].db, p, n, protocol, slot)
      ensures PeerKey(n, protocol, Peers(r.states[m].db, p, protocol)[slot].name) !in r.states[j].w.remote
    {
      var t := CoveringRow(r, m, i, p, n, protocol, slot);
      ReleaseIsSound(r, i, j, a, p, t);
    }
  }

  /** A peer of the profile on an actionable target. */
  predicate CoveredPeer(db: Db, p: ProfileId, n: NodeKey, protocol: Protocol, slot: DeviceId) {
    (n, protocol) in Targets(db, p) && Actionable(db, n) && slot in Peers(db, p, protocol)
  }

  /** The deletion operation has a row for the peer, under the name the peer had then. */
  lemma CoveringRow(r: Run, m: nat, i: nat, p: ProfileId, n: NodeKey, protocol: Protocol, slot: DeviceId) returns (t: TaskId)
    requires IsRun(r) && m < i < |r.states| && r.actions[m].PointDeletion? && r.actions[m].p == p
    requires CoveredPeer(r.states[m].db, p, n, protocol, slot)
    ensures t in r.states[i].db.tasks && r.states[i].db.tasks[t].op == r.actions[m].op
    ensures KeyOf(r.states[i].db.tasks[t]) == PeerKey(n, protocol, Peers(r.states[m].db, p, protocol)[slot].name)
  {
    var db, op := r.states[m].db, r.actions[m].op;
    Reachable(r, m);
    PointCovers(r, m);
    assert HasRow(db, op, n, protocol, slot);
    t :| t in db.tasks && db.tasks[t].op == op && db.tasks[t].node == n && db.tasks[t].protocol == protocol && db.tasks[t].slot == slot;
    assert RevisionRow(db, t);
    PresentRowNames(r.states[m], t, p);
    RunPersists(r, m, i);
    assert SameRow(db.tasks[t], r.states[i].db.tasks[t]);
  }

  lemma RevokedIsClean(s: System, p: ProfileId, t: TaskId)
    requires Inv(s) && Revoked(s.db, p) && t in s.db.tasks && s.db.tasks[t].op == s.db.deletions[p].value
    requires s.db.tasks[t].status.Succeeded?
    ensures s.db.tasks[t].profile == p && s.db.tasks[t].action.Delete? && Clean(s.db, KeyOf(s.db.tasks[t]))
  {
  }

  lemma ReleasedIsDead(s: System, a: AccountId, p: ProfileId, t: TaskId)
    requires Inv(s) && Releasable(s.db, a) && Owns(s.db, a, p) && t in s.db.tasks && s.db.tasks[t].profile == p
    ensures var db := SettleAccounts(s.db); db.tasks == s.db.tasks && Dead(db, s.db.tasks[t].protocol, s.db.tasks[t].name)
  {
    var db := SettleAccounts(s.db);
    forall d | d in db.devices && NameOf(db.devices[d], s.db.tasks[t].protocol) == s.db.tasks[t].name
      ensures !db.devices[d].status.Active?
    {
      assert Bears(s.db, t, d);
      assert DeviceRow(s.db, t);
      assert OwnerReleased(s.db, d);
    }
  }
}
