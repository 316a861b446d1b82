/** The outbox as a transition system: every actor's atomic steps on the tables, interleaved freely,
 * next to a world the controller cannot see.
 *
 * A database transaction is a sequence of these steps, so runs of this system include every
 * interleaving of whole transactions, of the driver calls between them and of crashes.
 */
module OutboxRun {
  import opened Tables

  /** held: claims whose worker has not called the driver yet. dispatched: the calls made, in order.
      applied: commands that took effect on the node. fenced: commands the agent has retired, which
      can take no effect any more. remote: the peers that exist on the nodes. carried: the client identity the
      last ensure gave each peer. */
  datatype World = World(held: set<TaskId>, dispatched: seq<TaskId>, applied: set<TaskId>,
                         fenced: set<TaskId>, remote: set<PeerKey>, carried: map<PeerKey, nat>)

  /** dirty: operations whose tasks changed since their status was last refreshed. */
  datatype System = System(db: Db, w: World, dirty: set<OpId>)

  datatype Action =
    | Claim(id: TaskId)                    // run_one, first transaction
    | Refuse(id: TaskId)                   // run_one, ensure retired without dispatch
    | Dispatch(id: TaskId)                 // driver.execute
    | Drop(id: TaskId)                     // the snapshot had expired, or the call never left
    | Effect(id: TaskId)                   // the node carries the command out
    | Finish(id: TaskId, ok: bool)         // run_one, last transaction
    | Recover                              // a new process after a crash
    | Reconcile(id: TaskId)                // the journal confirms a success
    | Fence(id: TaskId)                    // driver.resolve or force_recovery retire
    | Repair(id: TaskId)                   // resolve_blocked supersedes
    | ForceCancel(id: TaskId)              // force_recovery.cancel supersedes
    | Withdraw(ids: set<TaskId>)           // queued work withdrawn before dispatch
    | Abandon(n: NodeKey)                  // registry-only retirement
    | RetireNode(n: NodeKey)               // verified retirement: the host was checked and carries nothing
    | RefreshOp(op: OpId)
    | SettleDeletions
    | SettleOldPeers
    | SettleOwners
    | BumpProfile(p: ProfileId)
    | RecordOp(p: ProfileId, op: OpId, created: nat, targets: set<(NodeKey, Protocol)>, made: map<TaskId, Task>)
    | AddDevice(d: DeviceId, row: Device)
    | DeleteDevice(d: DeviceId)
    | RotateAwg(d: DeviceId, slot: DeviceId, name: Name)
    | RotateXray(d: DeviceId, uuid: nat)
    | RenameDevice(d: DeviceId)
    | BeginDeletion(p: ProfileId)
    | PointDeletion(p: ProfileId, op: OpId) // at the operation just recorded for everything the profile has
    | Environment

  function Live(w: World, id: TaskId): bool { id in w.dispatched && id !in w.applied && id !in w.fenced }

  /** Rows resolve_blocked supersedes: the profile's queued or blocked work on the node. */
  function RepairSet(db: Db, id: TaskId): set<TaskId>
    requires id in db.tasks
  {
    set i | i in db.tasks && db.tasks[i].profile == db.tasks[id].profile && db.tasks[i].node == db.tasks[id].node &&
            (db.tasks[i].status.Awaiting? || db.tasks[i].status.Blocked?)
  }

  function AbandonSet(db: Db, n: NodeKey): set<TaskId> {
    set i | i in db.tasks && db.tasks[i].node == n && !Terminal(db.tasks[i].status)
  }

  function OpsOf(db: Db, ids: set<TaskId>): set<OpId> { set i | i in ids && i in db.tasks :: db.tasks[i].op }

  /** A name no peer has or had. */
  predicate FreshName(db: Db, p: Protocol, name: Name) {
    (forall i :: i in db.tasks ==> db.tasks[i].protocol != p || db.tasks[i].name != name) &&
    (forall d :: d in db.devices ==> NameOf(db.devices[d], p) != name) &&
    (p.Awg? ==> forall s :: s in db.peers ==> db.peers[s].name != name)
  }

  predicate FreshSlot(db: Db, s: DeviceId) {
    s !in db.devices && s !in db.peers && s != 0 && forall i :: i in db.tasks ==> db.tasks[i].slot != s
  }

  /** Moves task states and marks the operations whose status is now out of date. */
  ghost predicate Sets(s: System, s': System, ids: set<TaskId>, st: Status) {
    s' == s.(db := SetTasks(s.db, ids, st), dirty := s.dirty + OpsOf(s.db, ids))
  }

  /** Everything other services do that the outbox tolerates: node rows, settings and jobs, grants,
      new profiles and accounts, owners, deletion requests. Revisions of nodes only grow, retired node
      keys are not reused and a profile under deletion gets no grants. */
  ghost predicate Outside(s: System, s': System) {
    s'.w == s.w && s'.dirty == s.dirty &&
    s'.db.tasks == s.db.tasks && s'.db.ops == s.db.ops && s'.db.devices == s.db.devices &&
    s'.db.peers == s.db.peers && s'.db.retirements == s.db.retirements && s'.db.deletions == s.db.deletions &&
    (forall p :: p in s.db.profiles ==> p in s'.db.profiles && s'.db.profiles[p].revision == s.db.profiles[p].revision) &&
    (forall n :: n in s'.db.nodes && n !in s.db.nodes ==> n !in s.db.retirements) &&
    (forall n :: n in s.db.nodes ==> n in s'.db.nodes && s.db.nodes[n].desired <= s'.db.nodes[n].desired) &&
    (forall p :: p in s'.db.grants && p in s.db.deletions ==>
       s'.db.grants[p] == {} || (p in s.db.grants && s'.db.grants[p] == s.db.grants[p])) &&
    (forall a :: a in s.db.accounts ==>
       a in s'.db.accounts && s'.db.accounts[a].deletion.Completed? == s.db.accounts[a].deletion.Completed?) &&
    (forall a :: a in s'.db.accounts && a !in s.db.accounts ==> !s'.db.accounts[a].deletion.Completed?)
  }

  ghost predicate ClaimRule(s: System, id: TaskId, s': System) {
    Eligible(s.db, id) && !Refused(s.db, s.db.tasks[id]) &&
    s' == s.(db := ClaimTask(s.db, id), w := s.w.(held := s.w.held + {id}))
  }

  ghost predicate RefuseRule(s: System, id: TaskId, s': System) {
    Eligible(s.db, id) && Refused(s.db, s.db.tasks[id]) && Sets(s, s', {id}, Superseded)
  }

  ghost predicate DispatchRule(s: System, id: TaskId, s': System) {
    id in s.w.held &&
    s' == s.(w := s.w.(held := s.w.held - {id}, dispatched := s.w.dispatched + [id]))
  }

  ghost predicate DropRule(s: System, id: TaskId, s': System) {
    s' == s.(w := s.w.(held := s.w.held - {id}))
  }

  ghost predicate EffectRule(s: System, id: TaskId, s': System) {
    Live(s.w, id) && id in s.db.tasks &&
    s' == s.(w := s.w.(applied := s.w.applied + {id},
                       carried := if s.db.tasks[id].action.Ensure? then s.w.carried[KeyOf(s.db.tasks[id]) := s.db.tasks[id].secret]
                                  else s.w.carried,
                       remote := if s.db.tasks[id].action.Ensure? then s.w.remote + {KeyOf(s.db.tasks[id])}
                                 else s.w.remote - {KeyOf(s.db.tasks[id])}))
  }

  ghost predicate FinishRule(s: System, id: TaskId, ok: bool, s': System) {
    id in s.db.tasks && id !in s.w.held && (ok ==> id in s.w.applied) &&
    Sets(s, s', if s.db.tasks[id].status.Running? then {id} else {}, if ok then Succeeded else Blocked)
  }

  ghost predicate RecoverRule(s: System, s': System) {
    s' == s.(db := RecoverAll(s.db), w := s.w.(held := {}))
  }

  ghost predicate ReconcileRule(s: System, id: TaskId, s': System) {
    id in s.db.tasks && s.db.tasks[id].status.Blocked? && id in s.w.applied &&
    Sets(s, s', {id}, Succeeded)
  }

  ghost predicate FenceRule(s: System, id: TaskId, s': System) {
    id in s.db.tasks && s.db.tasks[id].status.Blocked? &&
    s' == s.(w := s.w.(fenced := s.w.fenced + {id}))
  }

  ghost predicate RepairRule(s: System, id: TaskId, s': System) {
    id in s.db.tasks && s.db.tasks[id].status.Blocked? && id in s.w.fenced &&
    Sets(s, s', RepairSet(s.db, id), Superseded)
  }

  ghost predicate ForceCancelRule(s: System, id: TaskId, s': System) {
    id in s.db.tasks && s.db.tasks[id].status.Blocked? && id in s.w.fenced &&
    Sets(s, s', {id}, Superseded)
  }

  ghost predicate WithdrawRule(s: System, ids: set<TaskId>, s': System) {
    (forall i :: i in ids ==> i in s.db.tasks && s.db.tasks[i].status.Awaiting?) &&
    Sets(s, s', ids, Superseded)
  }

  ghost predicate AbandonRule(s: System, n: NodeKey, s': System) {
    n !in s.db.retirements && (forall i :: i in s.w.held && i in s.db.tasks ==> s.db.tasks[i].node != n) &&
    s' == s.(db := SetTasks(s.db, AbandonSet(s.db, n), Superseded)
                   .(retirements := s.db.retirements[n := RegistryOnly], nodes := s.db.nodes - {n},
                     cleanups := s.db.cleanups - {n}),
             dirty := s.dirty + OpsOf(s.db, AbandonSet(s.db, n)))
  }

  ghost predicate RetireNodeRule(s: System, n: NodeKey, s': System) {
    n !in s.db.retirements && AbandonSet(s.db, n) == {} && RevocationsDone(s.db, n) &&
    s' == s.(db := s.db.(retirements := s.db.retirements[n := Verified], nodes := s.db.nodes - {n},
                         cleanups := s.db.cleanups - {n}),
             w := s.w.(remote := set k | k in s.w.remote && k.node != n))
  }

  ghost predicate RefreshOpRule(s: System, op: OpId, s': System) {
    s' == s.(db := RefreshStatus(s.db, op), dirty := s.dirty - {op})
  }

  ghost predicate SettleDeletionsRule(s: System, s': System) {
    s' == s.(db := SettleDevices(s.db))
  }

  ghost predicate SettleOldPeersRule(s: System, s': System) {
    s' == s.(db := SettlePeers(s.db))
  }

  ghost predicate SettleOwnersRule(s: System, s': System) {
    s' == s.(db := SettleAccounts(s.db))
  }

  ghost predicate BumpProfileRule(s: System, p: ProfileId, s': System) {
    s' == s.(db := Bump(s.db, p))
  }

  ghost predicate RecordOpRule(s: System, p: ProfileId, op: OpId, created: nat, targets: set<(NodeKey, Protocol)>, made: map<TaskId, Task>, s': System) {
    Recordable(s.db, p, op, created, targets, made) &&
    s' == s.(db := Record(s.db, p, op, made))
  }

  ghost predicate AddDeviceRule(s: System, d: DeviceId, row: Device, s': System) {
    FreshSlot(s.db, d) && FreshName(s.db, Awg, row.awg) && FreshName(s.db, Xray, row.xray) &&
    row.status.Active? && row.profile in s.db.profiles &&
    s' == s.(db := s.db.(devices := s.db.devices[d := row]))
  }

  ghost predicate DeleteDeviceRule(s: System, d: DeviceId, s': System) {
    d in s.db.devices && s.db.devices[d].status.Active? &&
    s' == s.(db := Bump(WithDevice(s.db, d, s.db.devices[d].(status := Deleting, revision := s.db.devices[d].revision + 1)),
                        s.db.devices[d].profile))
  }

  ghost predicate RotateAwgRule(s: System, d: DeviceId, slot: DeviceId, name: Name, s': System) {
    d in s.db.devices && s.db.devices[d].status.Active? &&
    s.db.devices[d].profile in s.db.profiles && FreshSlot(s.db, slot) && FreshName(s.db, Awg, name) &&
    s' == s.(db := Bump(WithDevice(s.db.(peers := s.db.peers[slot := OldPeer(s.db.devices[d].profile, s.db.devices[d].awg)]),
                                   d, s.db.devices[d].(awg := name, revision := s.db.devices[d].revision + 1)),
                        s.db.devices[d].profile))
  }

  ghost predicate RotateXrayRule(s: System, d: DeviceId, uuid: nat, s': System) {
    d in s.db.devices && s.db.devices[d].status.Active? &&
    s' == s.(db := Bump(WithDevice(s.db, d, s.db.devices[d].(uuid := uuid, revision := s.db.devices[d].revision + 1)),
                        s.db.devices[d].profile))
  }

  ghost predicate RenameDeviceRule(s: System, d: DeviceId, s': System) {
    d in s.db.devices && s.db.devices[d].status.Active? &&
    s' == s.(db := WithDevice(s.db, d, s.db.devices[d].(revision := s.db.devices[d].revision + 1)))
  }

  ghost predicate BeginDeletionRule(s: System, p: ProfileId, s': System) {
    p in s.db.profiles && p !in s.db.deletions &&
    s' == s.(db := Bump(RevokeAll(s.db, p), p))
  }

  ghost predicate PointDeletionRule(s: System, p: ProfileId, op: OpId, s': System) {
    p in s.db.deletions && p in s.db.profiles && op in s.db.ops &&
    s.db.ops[op].profile == p && s.db.ops[op].revision == s.db.profiles[p].revision && OpCovers(s.db, p, op) &&
    s' == s.(db := s.db.(deletions := s.db.deletions[p := Some(op)]))
  }

  ghost predicate Next(s: System, a: Action, s': System) {
    match a
    case Claim(id) => ClaimRule(s, id, s')
    case Refuse(id) => RefuseRule(s, id, s')
    case Dispatch(id) => DispatchRule(s, id, s')
    case Drop(id) => DropRule(s, id, s')
    case Effect(id) => EffectRule(s, id, s')
    case Finish(id, ok) => FinishRule(s, id, ok, s')
    case Recover => RecoverRule(s, s')
    case Reconcile(id) => ReconcileRule(s, id, s')
    case Fence(id) => FenceRule(s, id, s')
    case Repair(id) => RepairRule(s, id, s')
    case ForceCancel(id) => ForceCancelRule(s, id, s')
    case Withdraw(ids) => WithdrawRule(s, ids, s')
    case Abandon(n) => AbandonRule(s, n, s')
    case RetireNode(n) => RetireNodeRule(s, n, s')
    case RefreshOp(op) => RefreshOpRule(s, op, s')
    case SettleDeletions => SettleDeletionsRule(s, s')
    case SettleOldPeers => SettleOldPeersRule(s, s')
    case SettleOwners => SettleOwnersRule(s, s')
    case BumpProfile(p) => BumpProfileRule(s, p, s')
    case RecordOp(p, op, created, targets, made) => RecordOpRule(s, p, op, created, targets, made, s')
    case AddDevice(d, row) => AddDeviceRule(s, d, row, s')
    case DeleteDevice(d) => DeleteDeviceRule(s, d, s')
    case RotateAwg(d, slot, name) => RotateAwgRule(s, d, slot, name, s')
    case RotateXray(d, uuid) => RotateXrayRule(s, d, uuid, s')
    case RenameDevice(d) => RenameDeviceRule(s, d, s')
    case BeginDeletion(p) => BeginDeletionRule(s, p, s')
    case PointDeletion(p, op) => PointDeletionRule(s, p, op, s')
    case Environment => Outside(s, s')
  }

  function RecoverAll(db: Db): Db {
    db.(tasks := map i | i in db.tasks ::
          if db.tasks[i].status.Running? then db.tasks[i].(status := Blocked) else db.tasks[i],
        ops := map o | o in db.ops ::
          if db.ops[o].status.OpRunning? then db.ops[o].(status := OpBlocked) else db.ops[o])
  }

  function WithDevice(db: Db, d: DeviceId, row: Device): Db { db.(devices := db.devices[d := row]) }

  /** A profile deletion: the request row, no grants, and an owned profile's active devices on
      their way out. */
  function RevokeAll(db: Db, p: ProfileId): Db
    requires p in db.profiles
  {
    db.(deletions := db.deletions[p := None], grants := db.grants[p := {}],
        profiles := db.profiles[p := db.profiles[p].(usable := false)],
        devices := map d | d in db.devices ::
          if db.profiles[p].owner.Some? && db.devices[d].profile == p && db.devices[d].status.Active?
          then db.devices[d].(status := Deleting, revision := db.devices[d].revision + 1) else db.devices[d])
  }

  ghost predicate Init(s: System) {
    s.db.tasks == map[] && s.db.ops == map[] && s.db.devices == map[] && s.db.peers == map[] &&
    s.db.retirements == map[] && s.db.deletions == map[] &&
    (forall a :: a in s.db.accounts ==> !s.db.accounts[a].deletion.Completed?) &&
    s.w == World({}, [], {}, {}, {}, map[]) && s.dirty == {}
  }

  /** A finite run: states and the actions between them. */
  datatype Run = Run(states: seq<System>, actions: seq<Action>)

  ghost predicate StepAt(r: Run, i: nat) {
    i < |r.actions| && i + 1 < |r.states| && Next(r.states[i], r.actions[i], r.states[i + 1])
  }

  ghost predicate IsRun(r: Run) {
    |r.states| == |r.actions| + 1 && Init(r.states[0]) && forall i: nat :: i < |r.actions| ==> StepAt(r, i)
  }
}
