/** Every step of the outbox keeps the invariant, so it holds in every state of every run. */
module OutboxSteps {
  import opened Tables
  import opened OutboxRun
  import opened OutboxInvariants
  import opened OutboxTables

  // ----- Task states -----

  /** The single-row moves a transaction may make on a task it does not hold. */
  ghost predicate MayMove(s: System, i: TaskId, st: Status)
    requires i in s.db.tasks
  {
    var a := s.db.tasks[i].status;
    match st
    case Awaiting => false
    case Running => false
    case Blocked => a.Running? && i !in s.w.held
    case Succeeded => Occupies(a) && i in s.w.applied && i !in s.w.held
    case Superseded => a.Awaiting? || (Occupies(a) && i in s.w.fenced && i !in s.w.held)
  }

  /** What a task step leaves alone. */
  ghost predicate SameTables(db: Db, db': Db) {
    db'.profiles == db.profiles && SameOps(db, db') && db'.devices == db.devices && db'.peers == db.peers &&
    db'.deletions == db.deletions && db'.grants == db.grants && (forall n :: n in db'.retirements ==> n !in db'.nodes)
  }

  ghost predicate TaskStep(s: System, s': System) { Evolves(s, s') && SameRows(s.db, s'.db) && SameTables(s.db, s'.db) }

  lemma SetsStep(s: System, s': System, ids: set<TaskId>, st: Status)
    requires Sets(s, s', ids, st) && Homes(s.db) && forall i :: i in ids && i in s.db.tasks ==> MayMove(s, i, st)
    ensures TaskStep(s, s')
  {
  }

  lemma ClaimStep(s: System, id: TaskId, s': System)
    requires Homes(s.db) && ClaimRule(s, id, s')
    ensures TaskStep(s, s')
  {
  }

  lemma RecoverStep(s: System, s': System)
    requires Homes(s.db) && RecoverRule(s, s')
    ensures TaskStep(s, s')
  {
    forall i | i in s.db.tasks
      ensures i in s'.db.tasks && SameRow(s.db.tasks[i], s'.db.tasks[i]) && Moves(s, s', i)
    {
    }
  }

  /** A repaired node has no second blocked command: the one that was fenced is the only one. */
  lemma RepairStep(s: System, id: TaskId, s': System)
    requires Core(s) && Homes(s.db) && RepairRule(s, id, s')
    ensures TaskStep(s, s')
  {
    forall i | i in RepairSet(s.db, id)
      ensures MayMove(s, i, Superseded)
    {
      if s.db.tasks[i].status.Blocked? { assert i == id; }
    }
    SetsStep(s, s', RepairSet(s.db, id), Superseded);
  }

  /** Everything unfinished on a node that is given up is superseded; none of it is held by a worker. */
  lemma AbandonedRow(s: System, n: NodeKey, s': System, i: TaskId)
    requires AbandonRule(s, n, s') && i in s.db.tasks
    ensures i in s'.db.tasks && SameRow(s.db.tasks[i], s'.db.tasks[i]) && Moves(s, s', i)
    ensures s.db.tasks[i].node == n ==> Terminal(s'.db.tasks[i].status)
  {
  }

  lemma AbandonFrame(s: System, n: NodeKey, s': System)
    requires Homes(s.db) && AbandonRule(s, n, s')
    ensures SameTables(s.db, s'.db) && s'.w == s.w && s'.db.tasks.Keys == s.db.tasks.Keys
    ensures s'.db.retirements == s.db.retirements[n := RegistryOnly]
  {
  }

  lemma AbandonStep(s: System, n: NodeKey, s': System)
    requires Homes(s.db) && AbandonRule(s, n, s')
    ensures TaskStep(s, s')
  {
    AbandonFrame(s, n, s');
    forall i | i in s.db.tasks
      ensures i in s'.db.tasks && SameRow(s.db.tasks[i], s'.db.tasks[i]) && Moves(s, s', i)
      ensures s.db.tasks[i].node == n ==> Terminal(s'.db.tasks[i].status)
    {
      AbandonedRow(s, n, s', i);
    }
  }

  lemma RetireStep(s: System, n: NodeKey, s': System)
    requires Homes(s.db) && RetireNodeRule(s, n, s')
    ensures TaskStep(s, s')
  {
    forall i | i in s.db.tasks && s.db.tasks[i].node == n
      ensures Terminal(s.db.tasks[i].status)
    {
      assert i !in AbandonSet(s.db, n);
    }
  }

  lemma FinishStep(s: System, id: TaskId, ok: bool, s': System)
    requires Homes(s.db) && FinishRule(s, id, ok, s')
    ensures TaskStep(s, s')
  {
    SetsStep(s, s', if s.db.tasks[id].status.Running? then {id} else {}, if ok then Succeeded else Blocked);
  }

  lemma RefuseStep(s: System, id: TaskId, s': System)
    requires Homes(s.db) && RefuseRule(s, id, s')
    ensures TaskStep(s, s')
  {
    SetsStep(s, s', {id}, Superseded);
  }

  lemma ReconcileStep(s: System, id: TaskId, s': System)
    requires Core(s) && Homes(s.db) && ReconcileRule(s, id, s')
    ensures TaskStep(s, s')
  {
    SetsStep(s, s', {id}, Succeeded);
  }

  lemma ForceCancelStep(s: System, id: TaskId, s': System)
    requires Core(s) && Homes(s.db) && ForceCancelRule(s, id, s')
    ensures TaskStep(s, s')
  {
    SetsStep(s, s', {id}, Superseded);
  }

  lemma WithdrawStep(s: System, ids: set<TaskId>, s': System)
    requires Homes(s.db) && WithdrawRule(s, ids, s')
    ensures TaskStep(s, s')
  {
    SetsStep(s, s', ids, Superseded);
  }

  lemma DispatchStep(s: System, id: TaskId, s': System)
    requires Homes(s.db) && DispatchRule(s, id, s')
    ensures TaskStep(s, s')
  {
    assert s'.w.dispatched[..|s.w.dispatched|] == s.w.dispatched;
  }

  lemma DropStep(s: System, id: TaskId, s': System)
    requires Homes(s.db) && DropRule(s, id, s')
    ensures TaskStep(s, s')
  {
  }

  lemma FenceStep(s: System, id: TaskId, s': System)
    requires Homes(s.db) && FenceRule(s, id, s')
    ensures TaskStep(s, s')
  {
  }

  /** Steps that touch neither tasks nor the world. */
  lemma StillEvolves(s: System, s': System)
    requires s'.db.tasks == s.db.tasks && s'.w == s.w && s'.db.retirements == s.db.retirements
    ensures Evolves(s, s') && SameRows(s.db, s'.db)
  {
  }

  /** The parts of the invariant other than operation states. */
  ghost predicate Rows(s: System) {
    Core(s) && Revisions(s.db) && Names(s.db) && DeletionsRevoke(s.db)
  }

  predicate OnTasks(a: Action) {
    a.Claim? || a.Refuse? || a.Dispatch? || a.Drop? || a.Finish? || a.Recover? || a.Reconcile? || a.Fence? ||
    a.Repair? || a.ForceCancel? || a.Withdraw? || a.Abandon? || a.RetireNode?
  }

  lemma TaskSteps(s: System, a: Action, s': System)
    requires Core(s) && Homes(s.db) && Next(s, a, s') && OnTasks(a)
    ensures TaskStep(s, s')
  {
    match a
    case Claim(id) => ClaimStep(s, id, s');
    case Refuse(id) => RefuseStep(s, id, s');
    case Dispatch(id) => DispatchStep(s, id, s');
    case Drop(id) => DropStep(s, id, s');
    case Finish(id, ok) => FinishStep(s, id, ok, s');
    case Recover => RecoverStep(s, s');
    case Reconcile(id) => ReconcileStep(s, id, s');
    case Fence(id) => FenceStep(s, id, s');
    case Repair(id) => RepairStep(s, id, s');
    case ForceCancel(id) => ForceCancelStep(s, id, s');
    case Withdraw(ids) => WithdrawStep(s, ids, s');
    case Abandon(n) => AbandonStep(s, n, s');
    case RetireNode(n) => RetireStep(s, n, s');
  }

  // ----- Steps on the other tables -----

  predicate OnOthers(a: Action) {
    a.RefreshOp? || a.SettleDeletions? || a.SettleOldPeers? || a.SettleOwners? || a.BumpProfile? || a.DeleteDevice? ||
    a.RotateXray? || a.RenameDevice? || a.Environment?
  }

  /** A step that leaves tasks, operations' identities and the world alone and keeps names. */
  ghost predicate Aside(s: System, s': System) {
    s'.w == s.w && s'.db.tasks == s.db.tasks && s'.db.retirements == s.db.retirements && s'.db.deletions == s.db.deletions &&
    Grows(s.db, s'.db) && SameOps(s.db, s'.db) && SameNames(s.db, s'.db) &&
    (forall p :: p in s'.db.grants && p in s.db.deletions ==>
       s'.db.grants[p] == {} || (p in s.db.grants && s'.db.grants[p] == s.db.grants[p]))
  }

  lemma SettleDeletionsAside(s: System, s': System)
    requires Homes(s.db) && SettleDeletionsRule(s, s')
    ensures Aside(s, s')
  {
  }

  lemma SettleOwnersAside(s: System, s': System)
    requires Homes(s.db) && SettleOwnersRule(s, s')
    ensures Aside(s, s')
  {
  }

  lemma SettleOldPeersAside(s: System, s': System)
    requires Homes(s.db) && SettleOldPeersRule(s, s')
    ensures Aside(s, s')
  {
  }

  lemma RefreshOpAside(s: System, op: OpId, s': System)
    requires Homes(s.db) && RefreshOpRule(s, op, s')
    ensures Aside(s, s')
  {
  }

  lemma BumpAside(s: System, p: ProfileId, s': System)
    requires Homes(s.db) && BumpProfileRule(s, p, s')
    ensures Aside(s, s')
  {
  }

  lemma DeleteAside(s: System, d: DeviceId, s': System)
    requires Homes(s.db) && DeleteDeviceRule(s, d, s')
    ensures Aside(s, s')
  {
  }

  lemma RotateXrayAside(s: System, d: DeviceId, uuid: nat, s': System)
    requires Homes(s.db) && RotateXrayRule(s, d, uuid, s')
    ensures Aside(s, s')
  {
  }

  lemma RenameAside(s: System, d: DeviceId, s': System)
    requires Homes(s.db) && RenameDeviceRule(s, d, s')
    ensures Aside(s, s')
  {
  }

  lemma OutsideAside(s: System, s': System)
    requires Homes(s.db) && Outside(s, s')
    ensures Aside(s, s')
  {
  }

  lemma SettlingAsides(s: System, a: Action, s': System)
    requires Homes(s.db) && Next(s, a, s') && (a.RefreshOp? || a.SettleDeletions? || a.SettleOldPeers? || a.SettleOwners?)
    ensures Aside(s, s')
  {
    match a
    case RefreshOp(op) => RefreshOpAside(s, op, s');
    case SettleDeletions => SettleDeletionsAside(s, s');
    case SettleOldPeers => SettleOldPeersAside(s, s');
    case SettleOwners => SettleOwnersAside(s, s');
  }

  lemma CommandAsides(s: System, a: Action, s': System)
    requires Homes(s.db) && Next(s, a, s') && (a.DeleteDevice? || a.RotateXray?)
    ensures Aside(s, s')
  {
    if a.DeleteDevice? { DeleteAside(s, a.d, s'); } else { RotateXrayAside(s, a.d, a.uuid, s'); }
  }

  lemma RaisingAsides(s: System, a: Action, s': System)
    requires Homes(s.db) && Next(s, a, s') && (a.BumpProfile? || a.RenameDevice?)
    ensures Aside(s, s')
  {
    if a.BumpProfile? { BumpAside(s, a.p, s'); } else { RenameAside(s, a.d, s'); }
  }

  lemma Asides(s: System, a: Action, s': System)
    requires Homes(s.db) && Next(s, a, s') && OnOthers(a)
    ensures Aside(s, s')
  {
    if a.Environment? { OutsideAside(s, s'); }
    else if a.DeleteDevice? || a.RotateXray? { CommandAsides(s, a, s'); }
    else if a.BumpProfile? || a.RenameDevice? { RaisingAsides(s, a, s'); }
    else { SettlingAsides(s, a, s'); }
  }

  lemma AsideKeeps(s: System, s': System)
    requires Rows(s) && Aside(s, s')
    ensures Rows(s')
  {
    StillEvolves(s, s');
    forall p | p in s'.db.grants && p in s.db.deletions
      ensures s'.db.grants[p] == {}
    {
      assert DeletionRevokes(s.db, p);
    }
    FramedStep(s, s');
  }

  lemma FramedStep(s: System, s': System)
    requires Rows(s)
    requires Frame(s.db, s'.db) && Evolves(s, s') && s'.db.deletions == s.db.deletions
    requires forall p :: p in s'.db.grants && p in s.db.deletions ==> s'.db.grants[p] == {}
    ensures Rows(s')
  {
    FrameUnique(s.db, s'.db);
    KeepsCore(s, s');
    FrameRevisions(s.db, s'.db);
    FrameNames(s.db, s'.db);
    FrameDeletions(s.db, s'.db);
  }

  lemma TaskStepKeeps(s: System, s': System)
    requires Rows(s) && TaskStep(s, s')
    ensures Rows(s')
  {
    SameTablesFrame(s.db, s'.db);
    FramedStep(s, s');
  }

  lemma SameTablesFrame(db: Db, db': Db)
    requires SameRows(db, db') && SameTables(db, db') && DeletionsRevoke(db)
    ensures Frame(db, db') && forall p :: p in db'.grants && p in db.deletions ==> db'.grants[p] == {}
  {
  }

  // ----- Deletion requests -----

  lemma BeginFrames(s: System, p: ProfileId, s': System)
    requires Homes(s.db) && BeginDeletionRule(s, p, s')
    ensures Frame(s.db, s'.db) && s'.db.tasks == s.db.tasks && s'.w == s.w && s'.db.retirements == s.db.retirements
    ensures s'.db.profiles[p].revision == s.db.profiles[p].revision + 1 && s'.db.ops == s.db.ops
    ensures s'.db.deletions == s.db.deletions[p := None] && s'.db.grants == s.db.grants[p := {}]
  {
  }

  lemma BeginRevokes(db: Db, p: ProfileId, db': Db, q: ProfileId)
    requires Revisions(db) && DeletionsRevoke(db) && Grows(db, db') && db'.tasks == db.tasks && db'.ops == db.ops && p in db.profiles
    requires db'.profiles[p].revision == db.profiles[p].revision + 1
    requires db'.deletions == db.deletions[p := None] && db'.grants == db.grants[p := {}]
    requires q in db'.deletions
    ensures DeletionRevokes(db', q)
  {
    if q != p { assert DeletionRevokes(db, q); }
    forall i | i in db'.tasks
      ensures EnsureBefore(db', i, q, db'.profiles[q].revision)
      ensures db'.deletions[q].Some? ==> EnsureBefore(db', i, q, db'.ops[db'.deletions[q].value].revision)
    {
      assert RevisionRow(db, i);
      if q != p {
        assert EnsureBefore(db, i, q, db.profiles[q].revision);
        assert db.deletions[q].Some? ==> EnsureBefore(db, i, q, db.ops[db.deletions[q].value].revision);
      }
    }
  }

  lemma BeginKeeps(s: System, p: ProfileId, s': System)
    requires Rows(s) && BeginDeletionRule(s, p, s')
    ensures Rows(s')
  {
    BeginFrames(s, p, s');
    StillEvolves(s, s');
    KeepsCore(s, s');
    FrameRevisions(s.db, s'.db);
    FrameNames(s.db, s'.db);
    forall q | q in s'.db.deletions
      ensures DeletionRevokes(s'.db, q)
    {
      BeginRevokes(s.db, p, s'.db, q);
    }
  }

  lemma PointRevokes(s: System, p: ProfileId, op: OpId, s': System, q: ProfileId)
    requires DeletionsRevoke(s.db) && PointDeletionRule(s, p, op, s') && q in s'.db.deletions
    ensures DeletionRevokes(s'.db, q)
  {
  }

  lemma PointKeeps(s: System, p: ProfileId, op: OpId, s': System)
    requires Rows(s) && PointDeletionRule(s, p, op, s')
    ensures Rows(s')
  {
    StillEvolves(s, s');
    assert Frame(s.db, s'.db);
    KeepsCore(s, s');
    FrameRevisions(s.db, s'.db);
    FrameNames(s.db, s'.db);
    forall q | q in s'.db.deletions
      ensures DeletionRevokes(s'.db, q)
    {
      PointRevokes(s, p, op, s', q);
    }
  }
}
