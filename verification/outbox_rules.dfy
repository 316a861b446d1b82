/** The outbox rules in terms of table columns: what is dispatched, what rows are made, what each transaction changes. */
module OutboxRules {
  import opened Tables
  import opened OutboxRun
  import opened OutboxTables
  import opened OutboxTheorems
  import opened Transactions

  // ----- Dispatch -----

  /** No settings task of the node stands in the way: none runs or is blocked, and a queued one only while the node's
      saved protocols drop the task's own. */
  ghost predicate NoSettings(db: Db, t: Task) {
    forall x :: x in db.settings && db.settings[x].node == t.node ==>
      db.settings[x].status != Running && db.settings[x].status != Blocked &&
      (db.settings[x].status == Awaiting ==> t.node in db.nodes && t.protocol !in db.nodes[t.node].protocols)
  }

  /** An ensure waits while the saved settings of a node that has been set up keep its protocol and are not applied. */
  ghost predicate SettingsApplied(db: Db, t: Task) {
    t.action == Delete || t.node !in db.nodes || t.protocol !in db.nodes[t.node].protocols ||
    db.nodes[t.node].applied == 0 || db.nodes[t.node].applied == db.nodes[t.node].desired
  }

  /** Task e, of the same profile on the same node at a lower revision, need not finish first. */
  ghost predicate Passable(db: Db, t: Task, e: TaskId)
    requires e in db.tasks
  {
    db.tasks[e].status == Succeeded || db.tasks[e].status == Superseded ||
    (t.action == Delete && db.tasks[e].protocol != t.protocol && db.tasks[e].status == Awaiting &&
     t.node in db.nodes && t.protocol !in db.nodes[t.node].protocols)
  }

  /** The node is free for the task. */
  ghost predicate NodeFree(db: Db, t: Task) {
    t.node !in db.jobs &&
    forall e :: e in db.tasks && db.tasks[e].node == t.node ==> db.tasks[e].status != Running && db.tasks[e].status != Blocked
  }

  /** The row can be taken up now. */
  ghost predicate Clear(db: Db, id: TaskId) {
    id in db.tasks && db.tasks[id].status == Awaiting && NodeFree(db, db.tasks[id]) && NoSettings(db, db.tasks[id]) &&
    SettingsApplied(db, db.tasks[id]) &&
    forall e | e in db.tasks && db.tasks[e].node == db.tasks[id].node && db.tasks[e].profile == db.tasks[id].profile &&
               db.tasks[e].revision < db.tasks[id].revision
      :: Passable(db, db.tasks[id], e)
  }

  /** The node, the protocol and the device of an ensure are in service. */
  ghost predicate InService(db: Db, t: Task) {
    t.node in db.nodes && db.nodes[t.node].enabled && t.protocol in db.nodes[t.node].protocols &&
    (t.slot == 0 || (t.slot in db.devices && db.devices[t.slot].status == Active))
  }

  lemma EligibleIsClear(db: Db, id: TaskId)
    ensures Eligible(db, id) <==> Clear(db, id)
  {
    if id in db.tasks {
      var t := db.tasks[id];
      assert SettingsFence(db, t) <==> !NoSettings(db, t);
      if Eligible(db, id) {
        forall e | e in db.tasks && db.tasks[e].node == t.node && db.tasks[e].profile == t.profile && db.tasks[e].revision < t.revision
          ensures Passable(db, t, e)
        {
          assert !HeldBackBy(db, t, e);
        }
      }
      if Clear(db, id) {
        forall e | e in db.tasks
          ensures !HeldBackBy(db, t, e)
        {
        }
      }
    }
  }

  lemma EligibleRowsAreClear(db: Db)
    ensures forall i :: Eligible(db, i) <==> Clear(db, i)
  {
    forall i
      ensures Eligible(db, i) <==> Clear(db, i)
    {
      EligibleIsClear(db, i);
    }
  }

  /** What a row that is claimed or retired undispatched looked like. */
  lemma DispatchedOnlyWhenClear(r: Run, i: nat)
    requires IsRun(r) && i < |r.actions| && (r.actions[i].Claim? || r.actions[i].Refuse?)
    ensures var db := r.states[i].db; var id := r.actions[i].id;
      Clear(db, id) &&
      (r.actions[i].Refuse? <==> db.tasks[id].action == Ensure && !InService(db, db.tasks[id])) &&
      r.states[i + 1].db.tasks == db.tasks[id := db.tasks[id].(status := if r.actions[i].Claim? then Running else Superseded)]
  {
    assert StepAt(r, i);
    EligibleIsClear(r.states[i].db, r.actions[i].id);
    if r.actions[i].Claim? { OneStatus(r.states[i].db, r.actions[i].id, Running); } else { OneStatus(r.states[i].db, r.actions[i].id, Superseded); }
  }

  lemma OneStatus(db: Db, id: TaskId, st: Status)
    requires id in db.tasks
    ensures SetTasks(db, {id}, st).tasks == db.tasks[id := db.tasks[id].(status := st)]
  {
  }

  /** The dispatch order: oldest operation, then operation id, then task id. */
  lemma FirstIsOldest(db: Db, id: TaskId, j: TaskId)
    requires FirstEligible(db, id) && Clear(db, j) && j != id
    ensures db.tasks[id].created <= db.tasks[j].created
    ensures db.tasks[id].created == db.tasks[j].created ==> db.tasks[id].op <= db.tasks[j].op
    ensures db.tasks[id].created == db.tasks[j].created && db.tasks[id].op == db.tasks[j].op ==> id < j
  {
    EligibleIsClear(db, j);
  }

  // ----- What is recorded -----

  /** The columns of a row record() makes. It ensures a peer only for a usable profile, an enabled node, a granted target
      and an active device, and removes it otherwise. */
  lemma MadeColumns(db: Db, p: ProfileId, op: OpId, created: nat, targets: set<(NodeKey, Protocol)>, t: Task)
    requires p in db.profiles && MadeRow(db, p, op, created, targets, t)
    ensures t.op == op && t.profile == p && t.revision == db.profiles[p].revision && t.created == created && t.status == Awaiting
    ensures (t.node, t.protocol) in targets && t.node !in db.cleanups && t.node !in db.retirements
    ensures t.action == Ensure <==>
      db.profiles[p].usable && t.node in db.nodes && db.nodes[t.node].enabled && p in db.grants &&
      (t.node, t.protocol) in db.grants[p] && t.slot in db.devices && t.slot !in OldSlots(db, p, t.protocol) &&
      db.devices[t.slot].status == Active
    ensures t.slot in OldSlots(db, p, t.protocol) ==> t.name == db.peers[t.slot].name
    ensures t.slot !in OldSlots(db, p, t.protocol) ==>
      t.slot in db.devices && db.devices[t.slot].profile == p &&
      t.name == (if t.protocol == Awg then db.devices[t.slot].awg else db.devices[t.slot].xray)
    ensures t.secret == if t.protocol == Xray && t.action == Ensure then db.devices[t.slot].uuid else 0
  {
  }

  /** Slots of the AWG peers the profile's rotations left behind. */
  function OldSlots(db: Db, p: ProfileId, protocol: Protocol): set<DeviceId> {
    set s | s in db.peers && db.peers[s].profile == p && protocol == Awg
  }

  /** Which peers get a row: every device of the profile, and for AWG every old peer once the profile has a device. */
  lemma PeerSlots(db: Db, p: ProfileId, protocol: Protocol, slot: DeviceId)
    ensures slot in Peers(db, p, protocol) <==>
      (slot in db.devices && db.devices[slot].profile == p) ||
      (protocol == Awg && slot in db.peers && db.peers[slot].profile == p && exists d :: d in db.devices && db.devices[d].profile == p)
  {
    if d :| d in db.devices && db.devices[d].profile == p { assert d in OwnPeers(db, p, protocol); }
  }

  /** Which targets: every grant, and every node and protocol a task was ever recorded for. */
  lemma TargetColumns(db: Db, p: ProfileId, n: NodeKey, protocol: Protocol)
    ensures (n, protocol) in Targets(db, p) <==>
      (p in db.grants && (n, protocol) in db.grants[p]) ||
      exists id :: id in db.tasks && db.tasks[id].profile == p && db.tasks[id].node == n && db.tasks[id].protocol == protocol
  {
  }

  /** A recorded operation waits for its rows, or has no targets and is finished. */
  lemma RecordedOperation(db: Db, p: ProfileId, op: OpId, created: nat, targets: set<(NodeKey, Protocol)>, made: map<TaskId, Task>)
    requires Recordable(db, p, op, created, targets, made)
    ensures var e := Record(db, p, op, made);
      op in e.ops && e.ops[op].profile == p && e.ops[op].revision == db.profiles[p].revision &&
      (e.ops[op].status == NoTargets <==> forall i :: i in e.tasks ==> e.tasks[i].op != op) &&
      (e.ops[op].status == NoTargets || (e.ops[op].status == OpAwaiting && Aggregate(e, op) == OpAwaiting))
  {
    var e := Record(db, p, op, made);
    RecordedRows(db, p, op, created, targets, made);
    RecordAggregate(e, db.tasks, op, made);
  }

  lemma RecordAggregate(e: Db, tasks: map<TaskId, Task>, op: OpId, made: map<TaskId, Task>)
    requires e.tasks == tasks + made
    requires forall i :: i in e.tasks && e.tasks[i].op == op ==> i in made
    requires forall i :: i in made ==> made[i].op == op && made[i].status == Awaiting
    ensures made == map[] <==> forall i :: i in e.tasks ==> e.tasks[i].op != op
    ensures made != map[] ==> Aggregate(e, op) == OpAwaiting
  {
    if i :| i in made {
      assert i in e.tasks && e.tasks[i] == made[i];
      assert Has(e, op, Awaiting);
      assert forall j :: j in made ==> e.tasks[j] == made[j];
    } else {
      assert made == map[];
    }
  }

  /** The operation's rows are the ones just made. */
  lemma RecordedRows(db: Db, p: ProfileId, op: OpId, created: nat, targets: set<(NodeKey, Protocol)>, made: map<TaskId, Task>)
    requires Recordable(db, p, op, created, targets, made)
    ensures forall i :: i in db.tasks && db.tasks[i].op == op ==> i in made
    ensures forall i :: i in made ==> made[i].op == op && made[i].status == Awaiting
  {
    forall i | i in made
      ensures made[i].op == op && made[i].status == Awaiting
    {
      MadeColumns(db, p, op, created, targets, made[i]);
    }
  }

  /** A deletion request takes everything away: the profile has no grants and is not usable, and an owned profile has no
      active device. Nothing else changes. */
  lemma DeletionRequested(r: Run, i: nat, d: DeviceId)
    requires IsRun(r) && i < |r.actions| && r.actions[i].BeginDeletion? && d in r.states[i].db.devices
    ensures var p, db, db' := r.actions[i].p, r.states[i].db, r.states[i + 1].db;
      p in db.profiles && p in db'.profiles && db'.profiles[p] == db.profiles[p].(usable := false, revision := db.profiles[p].revision + 1) &&
      db'.grants == db.grants[p := {}] && d in db'.devices &&
      db'.devices[d] ==
        if db.devices[d].profile == p && db.profiles[p].owner.Some? && db.devices[d].status == Active
        then db.devices[d].(status := Deleting, revision := db.devices[d].revision + 1) else db.devices[d]
  {
    assert StepAt(r, i);
    DeletionColumns(r.states[i], r.actions[i].p, r.states[i + 1], d);
  }

  lemma DeletionColumns(s: System, p: ProfileId, s': System, d: DeviceId)
    requires BeginDeletionRule(s, p, s') && d in s.db.devices
    ensures p in s'.db.profiles && s'.db.profiles[p] == s.db.profiles[p].(usable := false, revision := s.db.profiles[p].revision + 1)
    ensures s'.db.grants == s.db.grants[p := {}] && d in s'.db.devices && s'.db.devices[d] ==
      if s.db.devices[d].profile == p && s.db.profiles[p].owner.Some? && s.db.devices[d].status == Active
      then s.db.devices[d].(status := Deleting, revision := s.db.devices[d].revision + 1) else s.db.devices[d]
  {
  }

  /** From then on, whatever else happens, every row recorded for the profile is a removal. */
  lemma OnlyRemovalsAfterDeletion(r: Run, j: nat, p: ProfileId, op: OpId, created: nat, targets: set<(NodeKey, Protocol)>, t: Task)
    requires IsRun(r) && j < |r.states| && p in r.states[j].db.deletions && p in r.states[j].db.profiles
    requires MadeRow(r.states[j].db, p, op, created, targets, t)
    ensures t.action == Delete
  {
    Reachable(r, j);
    assert DeletionRevokes(r.states[j].db, p);
    MadeColumns(r.states[j].db, p, op, created, targets, t);
  }

  // ----- refresh_operation -----

  /** The order of the states: blocked, running, awaiting, superseded, succeeded. */
  lemma AggregateColumns(db: Db, op: OpId)
    ensures var st := Aggregate(db, op);
      (st == OpBlocked <==> exists i :: i in db.tasks && db.tasks[i].op == op && db.tasks[i].status == Blocked) &&
      (st == OpSucceeded <==> forall i :: i in db.tasks && db.tasks[i].op == op ==> db.tasks[i].status == Succeeded) &&
      (st == OpRunning ==> exists i :: i in db.tasks && db.tasks[i].op == op && db.tasks[i].status == Running) &&
      (st == OpAwaiting ==> exists i :: i in db.tasks && db.tasks[i].op == op && db.tasks[i].status == Awaiting) &&
      (st == OpAwaiting || st == OpSuperseded ==> forall i :: i in db.tasks && db.tasks[i].op == op ==> db.tasks[i].status != Running) &&
      (st == OpSuperseded ==> forall i :: i in db.tasks && db.tasks[i].op == op ==> db.tasks[i].status != Awaiting) &&
      st != NoTargets
  {
    if Has(db, op, Blocked) || Has(db, op, Running) || Has(db, op, Awaiting) || Has(db, op, Superseded) {
    } else {
      forall i | i in db.tasks && db.tasks[i].op == op
        ensures db.tasks[i].status == Succeeded
      {
        assert Has(db, op, db.tasks[i].status);
      }
    }
  }

  /** Row i was recorded last for its slot on its node: higher revision, then later creation, then higher id. */
  ghost predicate RecordedLast(db: Db, p: ProfileId, slot: DeviceId, i: TaskId) {
    i in db.tasks && db.tasks[i].profile == p && db.tasks[i].slot == slot &&
    forall j | j in db.tasks && j != i && db.tasks[j].profile == p && db.tasks[j].slot == slot && db.tasks[j].node == db.tasks[i].node
      :: db.tasks[j].revision < db.tasks[i].revision ||
         (db.tasks[j].revision == db.tasks[i].revision &&
          (db.tasks[j].created < db.tasks[i].created || (db.tasks[j].created == db.tasks[i].created && j < i)))
  }

  /** The row's node was retired after a check, or the row is a removal that succeeded. */
  ghost predicate Gone(db: Db, i: TaskId)
    requires i in db.tasks
  {
    (db.tasks[i].node in db.retirements && db.retirements[db.tasks[i].node] == Verified) ||
    (db.tasks[i].action == Delete && db.tasks[i].status == Succeeded)
  }

  lemma NewestIsRecordedLast(db: Db, p: ProfileId, slot: DeviceId, i: TaskId)
    ensures NewestOnNode(db.tasks, p, slot, i) <==> RecordedLast(db, p, slot, i)
  {
  }

  /** Exactly when settle_deletions retires a device. */
  lemma RetiresExactly(db: Db, d: DeviceId)
    requires d in db.devices
    ensures SettleDevices(db).devices[d] == db.devices[d] || SettleDevices(db).devices[d] == db.devices[d].(status := Retired)
    ensures db.devices[d].status != Retired ==> (SettleDevices(db).devices[d].status == Retired <==>
      db.devices[d].status == Deleting &&
      (forall i | i in db.tasks && db.tasks[i].profile == db.devices[d].profile && db.tasks[i].slot == d
         :: (db.tasks[i].node in db.retirements && db.retirements[db.tasks[i].node] == Verified) ||
            db.tasks[i].status == Succeeded || db.tasks[i].status == Superseded) &&
      (forall i :: RecordedLast(db, db.devices[d].profile, d, i) ==> Gone(db, i)))
  {
    forall i
      ensures NewestOnNode(db.tasks, db.devices[d].profile, d, i) <==> RecordedLast(db, db.devices[d].profile, d, i)
    {
      NewestIsRecordedLast(db, db.devices[d].profile, d, i);
    }
  }

  /** Exactly when an old AWG peer is forgotten. */
  lemma ForgetsExactly(db: Db, s: DeviceId)
    requires s in db.peers
    ensures s !in SettlePeers(db).peers <==> forall i :: RecordedLast(db, db.peers[s].profile, s, i) ==> Gone(db, i)
    ensures s in SettlePeers(db).peers ==> SettlePeers(db).peers[s] == db.peers[s]
  {
    forall i
      ensures NewestOnNode(db.tasks, db.peers[s].profile, s, i) <==> RecordedLast(db, db.peers[s].profile, s, i)
    {
      NewestIsRecordedLast(db, db.peers[s].profile, s, i);
    }
  }

  /** The profile's deletion waits for an operation that has succeeded, or had no targets. */
  ghost predicate DeletionDone(db: Db, p: ProfileId) {
    p in db.deletions && db.deletions[p].Some? && db.deletions[p].value in db.ops &&
    (db.ops[db.deletions[p].value].status == OpSucceeded || db.ops[db.deletions[p].value].status == NoTargets)
  }

  /** The account is deleted, and its deletion is waiting for nothing more. */
  ghost predicate NothingLeft(db: Db, a: AccountId) {
    a in db.accounts && db.accounts[a].deletion == Pending &&
    forall p | p in db.profiles && db.profiles[p].owner == Some(a) :: DeletionDone(db, p)
  }

  lemma ReleasableColumns(db: Db, a: AccountId)
    ensures Releasable(db, a) <==> NothingLeft(db, a)
  {
    forall p
      ensures Revoked(db, p) <==> DeletionDone(db, p)
    {
    }
    assert forall p :: Owns(db, a, p) <==> p in db.profiles && db.profiles[p].owner == Some(a);
  }

  /** Exactly when an account is released: its row loses identities and channels at a new revision. */
  lemma ReleasesExactly(db: Db, a: AccountId)
    requires a in db.accounts
    ensures a in SettleAccounts(db).accounts && SettleAccounts(db).accounts[a] ==
      if NothingLeft(db, a) then Account(db.accounts[a].revision + 1, {}, {}, Completed) else db.accounts[a]
  {
    ReleasableColumns(db, a);
  }

  /** The device's owner is released. */
  ghost predicate OwnerLeaves(db: Db, d: DeviceId) {
    d in db.devices && db.devices[d].profile in db.profiles && db.profiles[db.devices[d].profile].owner.Some? &&
    NothingLeft(db, db.profiles[db.devices[d].profile].owner.value)
  }

  lemma OwnerReleasedColumns(db: Db, d: DeviceId)
    ensures OwnerReleased(db, d) <==> OwnerLeaves(db, d)
  {
    if d in db.devices && db.devices[d].profile in db.profiles && db.profiles[db.devices[d].profile].owner.Some? {
      ReleasableColumns(db, db.profiles[db.devices[d].profile].owner.value);
    }
  }

  lemma SettledRow(db: Db, d: DeviceId)
    requires d in db.devices
    ensures d in SettleAccounts(db).devices && SettleAccounts(db).devices[d] ==
      if OwnerReleased(db, d) then db.devices[d].(status := DeviceStatus.Retired) else db.devices[d]
  {
  }

  /** And its devices, with no others, are retired. */
  lemma ReleasesDevicesExactly(db: Db, d: DeviceId)
    requires d in db.devices
    ensures d in SettleAccounts(db).devices && SettleAccounts(db).devices[d] ==
      if OwnerLeaves(db, d) then db.devices[d].(status := DeviceStatus.Retired) else db.devices[d]
  {
    SettledRow(db, d);
    OwnerReleasedColumns(db, d);
  }

  // ----- Repair, cancellation, results -----

  /** A repair withdraws the queued and blocked rows of the profile on the node, and keeps every other row. */
  lemma RepairRowsExactly(db: Db, id: TaskId, order: seq<OpId>, op: OpId, created: nat, made: map<TaskId, Task>, db': Db, i: TaskId)
    requires Repaired(db, id, order, op, created, made, db') && i in db.tasks
    ensures i in db'.tasks && db'.tasks[i] ==
      if db.tasks[i].profile == db.tasks[id].profile && db.tasks[i].node == db.tasks[id].node &&
         (db.tasks[i].status == Awaiting || db.tasks[i].status == Blocked)
      then db.tasks[i].(status := Superseded) else db.tasks[i]
  {
    ClearedColumns(db, id, order);
    ReplaceColumns(Cleared(db, id, order), db.tasks[id].profile, op, made);
    assert i !in made;
  }

  /** It raises the profile's revision, and a pending deletion now waits for the new operation. */
  lemma RepairProfileExactly(db: Db, id: TaskId, order: seq<OpId>, op: OpId, created: nat, made: map<TaskId, Task>, db': Db)
    requires Repaired(db, id, order, op, created, made, db')
    ensures var p := db.tasks[id].profile;
      db'.profiles == db.profiles[p := db.profiles[p].(revision := db.profiles[p].revision + 1)] &&
      db'.deletions == if p in db.deletions then db.deletions[p := Some(op)] else db.deletions
  {
    ClearedColumns(db, id, order);
    ReplaceColumns(Cleared(db, id, order), db.tasks[id].profile, op, made);
  }

  lemma ClearedColumns(db: Db, id: TaskId, order: seq<OpId>)
    requires id in db.tasks && db.tasks[id].profile in db.profiles
    ensures var p, e := db.tasks[id].profile, Cleared(db, id, order);
      e.tasks == SetTasks(db, RepairSet(db, id), Superseded).tasks && e.deletions == db.deletions &&
      e.profiles == db.profiles[p := db.profiles[p].(revision := db.profiles[p].revision + 1)]
  {
    RefreshAllKeepsTasks(SetTasks(db, RepairSet(db, id), Superseded), order);
  }

  lemma ReplaceColumns(db: Db, p: ProfileId, op: OpId, made: map<TaskId, Task>)
    requires p in db.profiles
    ensures var e := ReplaceOperation(db, p, op, made);
      e.tasks == db.tasks + made && e.profiles == db.profiles &&
      e.deletions == if p in db.deletions then db.deletions[p := Some(op)] else db.deletions
  {
    var next := Record(db, p, op, made);
    SettleAccountsKeeps(if p in db.deletions then next.(deletions := next.deletions[p := Some(op)]) else next);
  }

  lemma SettleAccountsKeeps(db: Db)
    ensures SettleAccounts(db).tasks == db.tasks && SettleAccounts(db).profiles == db.profiles
    ensures SettleAccounts(db).deletions == db.deletions
  {
  }

  /** Withdrawing the rows one operation overtook. */
  lemma WithdrawnRow(db: Db, t: Task, op: OpId, i: TaskId)
    requires i in db.tasks
    ensures var e := Refresh(SetTasks(db, Overtaken(db.tasks, t, op), Superseded), op);
      e.tasks.Keys == db.tasks.Keys &&
      e.tasks[i] == if db.tasks[i].op == op && SameTarget(db.tasks[i], t) && db.tasks[i].status == Awaiting
                    then db.tasks[i].(status := Superseded) else db.tasks[i]
  {
    MarkedRows(db, Overtaken(db.tasks, t, op), Superseded, op);
  }

  lemma {:induction false} WithdrawAllRows(db: Db, t: Task, ops: seq<OpId>, i: TaskId)
    requires i in db.tasks
    ensures WithdrawAll(db, t, ops).tasks.Keys == db.tasks.Keys
    ensures WithdrawAll(db, t, ops).tasks[i] ==
      if db.tasks[i].op in ops && SameTarget(db.tasks[i], t) && db.tasks[i].status == Awaiting
      then db.tasks[i].(status := Superseded) else db.tasks[i]
  {
    if ops == [] {
    } else {
      WithdrawAllRows(db, t, ops[..|ops| - 1], i);
      assert ops == ops[..|ops| - 1] + [ops[|ops| - 1]];
      WithdrawnRow(WithdrawAll(db, t, ops[..|ops| - 1]), t, ops[|ops| - 1], i);
    }
  }

  lemma CancelTasks(db: Db, id: TaskId, order: seq<OpId>)
    requires id in db.tasks
    ensures CancelTx(db, id, order).tasks == WithdrawAll(SetTasks(db, {id}, Superseded), db.tasks[id], order).tasks
  {
    var t := db.tasks[id];
    var w := Bump(WithdrawAll(SetTasks(db, {id}, Superseded), t, order), t.profile);
    RefreshKeepsTasks(w, t.op);
  }

  /** Row i is queued for row t's peer on its node, at the same revision or a lower one. */
  predicate OvertakenBy(db: Db, t: Task, i: TaskId)
    requires i in db.tasks
  {
    db.tasks[i].status == Awaiting && db.tasks[i].profile == t.profile && db.tasks[i].node == t.node &&
    db.tasks[i].protocol == t.protocol && db.tasks[i].slot == t.slot && db.tasks[i].revision <= t.revision
  }

  /** An operation has one profile and one revision, so the operations listed name the overtaken rows and no others. */
  lemma OvertakenColumns(db: Db, id: TaskId, order: seq<OpId>, i: TaskId)
    requires Revisions(db) && id in db.tasks && db.tasks[id].status == Blocked && i in db.tasks && i != id
    requires Lists(order, OldOps(SetTasks(db, {id}, Superseded).tasks, db.tasks[id]))
    ensures db.tasks[i].op in order && SameTarget(db.tasks[i], db.tasks[id]) && db.tasks[i].status.Awaiting? <==>
            OvertakenBy(db, db.tasks[id], i)
  {
    var tasks, t := SetTasks(db, {id}, Superseded).tasks, db.tasks[id];
    if OvertakenBy(db, t, i) { assert tasks[i] == db.tasks[i] && tasks[i].op in OldOps(tasks, t); }
    assert RevisionRow(db, i);
    forall j | j in db.tasks && db.tasks[j].op == db.tasks[i].op
      ensures db.tasks[j].profile == db.tasks[i].profile && db.tasks[j].revision == db.tasks[i].revision
    {
      assert RevisionRow(db, j);
    }
  }

  /** What a forced cancellation does to the rows: the cancelled one and the queued ones it overtook are withdrawn. */
  lemma CancelRowsExactly(db: Db, id: TaskId, order: seq<OpId>, i: TaskId)
    requires Revisions(db) && id in db.tasks && db.tasks[id].status == Blocked && i in db.tasks
    requires Lists(order, OldOps(SetTasks(db, {id}, Superseded).tasks, db.tasks[id]))
    ensures i in CancelTx(db, id, order).tasks && CancelTx(db, id, order).tasks[i] ==
      if i == id || OvertakenBy(db, db.tasks[id], i) then db.tasks[i].(status := Superseded) else db.tasks[i]
  {
    CancelTasks(db, id, order);
    WithdrawAllRows(SetTasks(db, {id}, Superseded), db.tasks[id], order, i);
    if i != id { OvertakenColumns(db, id, order, i); }
  }

  /** And to the settings tasks: the queued ones that wait for the same protocol's removal from the node. */
  lemma CancelSettingsExactly(db: Db, id: TaskId, order: seq<OpId>, x: nat)
    requires id in db.tasks && x in db.settings
    ensures x in CancelTx(db, id, order).settings && CancelTx(db, id, order).settings[x] ==
      if db.settings[x].node == db.tasks[id].node && db.settings[x].status == Awaiting &&
         db.tasks[id].protocol in db.settings[x].removes
      then db.settings[x].(status := Superseded) else db.settings[x]
  {
    WithdrawAllSettings(SetTasks(db, {id}, Superseded), db.tasks[id], order);
  }

  lemma {:induction false} WithdrawAllSettings(db: Db, t: Task, ops: seq<OpId>)
    ensures WithdrawAll(db, t, ops).settings == db.settings
  {
    if ops == [] {
    } else {
      WithdrawAllSettings(db, t, ops[..|ops| - 1]);
    }
  }

  lemma MarkedRows(db: Db, ids: set<TaskId>, st: Status, op: OpId)
    ensures Refresh(SetTasks(db, ids, st), op).tasks == SetTasks(db, ids, st).tasks
  {
    RefreshKeepsTasks(SetTasks(db, ids, st), op);
  }

  /** Recording a result: only a running row moves, to succeeded or blocked. */
  lemma ResultExactly(db: Db, id: TaskId, ok: bool)
    requires id in db.tasks
    ensures FinishTx(db, id, ok).tasks ==
      if db.tasks[id].status == Running
      then db.tasks[id := db.tasks[id].(status := if ok then Succeeded else Blocked)] else db.tasks
  {
    var st := if ok then Succeeded else Blocked;
    if db.tasks[id].status == Running {
      MarkedRows(db, {id}, st, db.tasks[id].op);
      OneStatus(db, id, st);
    } else {
      MarkedRows(db, {}, st, db.tasks[id].op);
      NoStatus(db, st);
    }
  }

  lemma NoStatus(db: Db, st: Status)
    ensures SetTasks(db, {}, st).tasks == db.tasks
  {
  }

  /** A confirmed success: only a blocked row moves. */
  lemma ConfirmationExactly(db: Db, id: TaskId)
    requires id in db.tasks
    ensures ReconcileTx(db, id).tasks ==
      if db.tasks[id].status == Blocked then db.tasks[id := db.tasks[id].(status := Succeeded)] else db.tasks
  {
    MarkedRows(db, {id}, Succeeded, db.tasks[id].op);
    OneStatus(db, id, Succeeded);
  }
}
