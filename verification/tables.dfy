/** The controller's durable tables, as values, and the queries several services share.
 *
 * Identifiers stand for the text keys of the schema: only their equality and their order
 * (ORDER BY) are used. A task row carries its operation's profile, revision and creation time,
 * which the schema never changes after the insert and every query joins in; secret is the client
 * identity an Xray ensure carries, and 0 otherwise.
 */
module Tables {
  type NodeKey = nat
  type ProfileId = nat
  type DeviceId = nat
  type OpId = nat
  type TaskId = nat
  type AccountId = nat
  type Name = nat

  datatype Option<+T> = None | Some(value: T)

  datatype Protocol = Awg | Xray
  datatype Act = Ensure | Delete
  datatype Status = Awaiting | Running | Succeeded | Blocked | Superseded
  datatype OpStatus = NoTargets | OpAwaiting | OpRunning | OpSucceeded | OpBlocked | OpSuperseded
  datatype DeviceStatus = Active | Deleting | Retired
  datatype Mode = Verified | RegistryOnly
  datatype Deletion = Kept | Pending | Completed

  datatype Task = Task(op: OpId, profile: ProfileId, revision: nat, created: nat, node: NodeKey,
                       protocol: Protocol, slot: DeviceId, name: Name, action: Act, status: Status, secret: nat)
  datatype Op = Op(profile: ProfileId, revision: nat, status: OpStatus)
  /** `usable` is "not frozen, not expired, not over quota". */
  datatype Profile = Profile(owner: Option<AccountId>, revision: nat, usable: bool)
  /** awg and xray are the runtime names of its peers, uuid the identity of its Xray client. */
  datatype Device = Device(profile: ProfileId, awg: Name, xray: Name, status: DeviceStatus, revision: nat, uuid: nat)
  /** A settings task of a node, and the protocols its plan removes. */
  datatype Setting = Setting(node: NodeKey, status: Status, removes: set<Protocol>)
  /** A peer left behind by an AWG key rotation, under its own task slot. */
  datatype OldPeer = OldPeer(profile: ProfileId, name: Name)
  datatype Node = Node(enabled: bool, protocols: set<Protocol>, desired: nat, applied: nat)
  datatype Account = Account(revision: nat, identities: set<nat>, channels: set<nat>, deletion: Deletion)

  datatype Db = Db(
    tasks: map<TaskId, Task>,
    ops: map<OpId, Op>,
    profiles: map<ProfileId, Profile>,
    devices: map<DeviceId, Device>,
    peers: map<DeviceId, OldPeer>,
    nodes: map<NodeKey, Node>,
    retirements: map<NodeKey, Mode>,
    cleanups: set<NodeKey>,
    drains: set<NodeKey>,
    settings: map<nat, Setting>,
    jobs: set<NodeKey>,                    // nodes with an unfinished node job
    grants: map<ProfileId, set<(NodeKey, Protocol)>>,
    deletions: map<ProfileId, Option<OpId>>,
    accounts: map<AccountId, Account>)

  predicate Terminal(s: Status) { s.Succeeded? || s.Superseded? }

  predicate Uncertain(s: Status) { !Terminal(s) }

  /** Holding the node: a command that may be executing there. */
  predicate Occupies(s: Status) { s.Running? || s.Blocked? }

  /** Two tasks whose commands the dispatcher orders by revision. */
  predicate SameLine(a: Task, b: Task) {
    a.profile == b.profile && a.node == b.node && a.protocol == b.protocol
  }

  /** What identifies a peer on a node's runtime. */
  datatype PeerKey = PeerKey(node: NodeKey, protocol: Protocol, name: Name)

  function KeyOf(t: Task): PeerKey { PeerKey(t.node, t.protocol, t.name) }

  function NameOf(d: Device, p: Protocol): Name { if p.Awg? then d.awg else d.xray }

  predicate IsVerified(db: Db, n: NodeKey) { n in db.retirements && db.retirements[n].Verified? }

  /** ORDER BY desired_revision, created_at, id: task i is listed after task j. */
  predicate After(tasks: map<TaskId, Task>, i: TaskId, j: TaskId) {
    i in tasks && j in tasks &&
    var a, b := tasks[i], tasks[j];
    a.revision > b.revision || (a.revision == b.revision &&
    (a.created > b.created || (a.created == b.created && i > j)))
  }

  /** The rows both settle queries read: the tasks of one profile for one device or peer slot. */
  predicate InSlot(tasks: map<TaskId, Task>, p: ProfileId, slot: DeviceId, id: TaskId) {
    id in tasks && tasks[id].profile == p && tasks[id].slot == slot
  }

  /** The first row the descending query lists for its node. */
  ghost predicate NewestOnNode(tasks: map<TaskId, Task>, p: ProfileId, slot: DeviceId, id: TaskId) {
    InSlot(tasks, p, slot, id) &&
    forall j :: InSlot(tasks, p, slot, j) && tasks[j].node == tasks[id].node && j != id ==> After(tasks, id, j)
  }

  predicate SameSlotLine(a: Task, b: Task) { a.profile == b.profile && SameTarget(a, b) }

  /** No newer row for its profile, node, protocol and device. */
  ghost predicate LatestRow(tasks: map<TaskId, Task>, id: TaskId) {
    id in tasks && forall j :: j in tasks && SameSlotLine(tasks[j], tasks[id]) ==> tasks[j].revision <= tasks[id].revision
  }

  /** NodeLifecycle's guard: on the node the latest row of every profile, protocol and device is a confirmed removal. */
  ghost predicate RevocationsDone(db: Db, n: NodeKey) {
    forall id :: LatestRow(db.tasks, id) && db.tasks[id].node == n ==> db.tasks[id].action.Delete? && db.tasks[id].status.Succeeded?
  }

  predicate Removed(db: Db, id: TaskId)
    requires id in db.tasks
  {
    IsVerified(db, db.tasks[id].node) || (db.tasks[id].action.Delete? && db.tasks[id].status.Succeeded?)
  }

  /** Nothing of the slot is undecided outside verified nodes. */
  ghost predicate NothingUncertain(db: Db, p: ProfileId, slot: DeviceId) {
    forall id :: InSlot(db.tasks, p, slot, id) && !IsVerified(db, db.tasks[id].node) ==> Terminal(db.tasks[id].status)
  }

  /** On every node the newest row of the slot is a confirmed removal. */
  ghost predicate NewestRemoved(db: Db, p: ProfileId, slot: DeviceId) {
    forall id :: NewestOnNode(db.tasks, p, slot, id) ==> Removed(db, id)
  }

  ghost predicate DeletionConfirmed(db: Db, d: DeviceId)
    requires d in db.devices
  {
    NothingUncertain(db, db.devices[d].profile, d) && NewestRemoved(db, db.devices[d].profile, d)
  }

  ghost function SettledDevice(db: Db, d: DeviceId): Device
    requires d in db.devices
  {
    if db.devices[d].status.Deleting? && DeletionConfirmed(db, d)
    then db.devices[d].(status := Retired) else db.devices[d]
  }

  /** DeviceRepository.settle_deletions without its call to settle_retired_peers. */
  ghost function SettleDevices(db: Db): Db {
    db.(devices := map d | d in db.devices :: SettledDevice(db, d))
  }

  ghost predicate PeerForgettable(db: Db, s: DeviceId)
    requires s in db.peers
  {
    NewestRemoved(db, db.peers[s].profile, s)
  }

  /** settle_retired_peers. */
  ghost function SettlePeers(db: Db): Db {
    db.(peers := map s | s in db.peers && !PeerForgettable(db, s) :: db.peers[s])
  }

  predicate Revoked(db: Db, p: ProfileId) {
    p in db.deletions && db.deletions[p].Some? && db.deletions[p].value in db.ops &&
    (db.ops[db.deletions[p].value].status.OpSucceeded? || db.ops[db.deletions[p].value].status.NoTargets?)
  }

  predicate Owns(db: Db, a: AccountId, p: ProfileId) { p in db.profiles && db.profiles[p].owner == Some(a) }

  ghost predicate Releasable(db: Db, a: AccountId) {
    a in db.accounts && db.accounts[a].deletion.Pending? && forall p :: Owns(db, a, p) ==> Revoked(db, p)
  }

  ghost function ReleasedAccount(db: Db, a: AccountId): Account
    requires a in db.accounts
  {
    if Releasable(db, a)
    then Account(db.accounts[a].revision + 1, {}, {}, Completed) else db.accounts[a]
  }

  /** The device's owner has just been released. */
  ghost predicate OwnerReleased(db: Db, d: DeviceId) {
    d in db.devices && db.devices[d].profile in db.profiles && db.profiles[db.devices[d].profile].owner.Some? &&
    Releasable(db, db.profiles[db.devices[d].profile].owner.value)
  }

  /** account_deletions.settle. */
  ghost function SettleAccounts(db: Db): Db {
    db.(accounts := map a | a in db.accounts :: ReleasedAccount(db, a),
        devices := map d | d in db.devices ::
          if OwnerReleased(db, d) then db.devices[d].(status := Retired) else db.devices[d])
  }

  predicate Has(db: Db, op: OpId, s: Status) {
    exists id :: id in db.tasks && db.tasks[id].op == op && db.tasks[id].status == s
  }

  /** The priority aggregate of an operation's task states. */
  function Aggregate(db: Db, op: OpId): OpStatus {
    if Has(db, op, Blocked) then OpBlocked
    else if Has(db, op, Running) then OpRunning
    else if Has(db, op, Awaiting) then OpAwaiting
    else if Has(db, op, Superseded) then OpSuperseded
    else OpSucceeded
  }

  function SetOp(db: Db, op: OpId, s: OpStatus): Db {
    if op in db.ops then db.(ops := db.ops[op := db.ops[op].(status := s)]) else db
  }

  function RefreshStatus(db: Db, op: OpId): Db { SetOp(db, op, Aggregate(db, op)) }

  /** IntentExecutor.refresh_operation. */
  ghost function Refresh(db: Db, op: OpId): Db {
    SettleAccounts(SettlePeers(SettleDevices(RefreshStatus(db, op))))
  }

  function SetTasks(db: Db, ids: set<TaskId>, s: Status): Db {
    db.(tasks := map id | id in db.tasks :: if id in ids then db.tasks[id].(status := s) else db.tasks[id])
  }

  function Bump(db: Db, p: ProfileId): Db {
    if p in db.profiles
    then db.(profiles := db.profiles[p := db.profiles[p].(revision := db.profiles[p].revision + 1)]) else db
  }

  // ----- The dispatch query of run_one -----

  /** The node's saved settings still include the protocol but are not applied yet. */
  predicate SettingsLag(db: Db, t: Task) {
    t.node in db.nodes && db.nodes[t.node].applied > 0 && db.nodes[t.node].applied != db.nodes[t.node].desired &&
    t.protocol in db.nodes[t.node].protocols
  }

  /** The node is known and its saved settings drop the task's protocol. */
  predicate Dropping(db: Db, t: Task) {
    t.node in db.nodes && t.protocol !in db.nodes[t.node].protocols
  }

  /** The settings task keeps the task from being dispatched. */
  predicate Fences(db: Db, x: Setting, t: Task) {
    x.node == t.node && (x.status.Running? || x.status.Blocked? || (x.status.Awaiting? && !Dropping(db, t)))
  }

  predicate SettingsFence(db: Db, t: Task) { exists x :: x in db.settings && Fences(db, db.settings[x], t) }

  predicate NodeOccupied(db: Db, n: NodeKey) {
    exists id :: id in db.tasks && db.tasks[id].node == n && Occupies(db.tasks[id].status)
  }

  /** An unfinished earlier revision of the same profile on the same node holds the task back. */
  predicate HeldBackBy(db: Db, t: Task, id: TaskId) {
    id in db.tasks && db.tasks[id].node == t.node && db.tasks[id].profile == t.profile &&
    db.tasks[id].revision < t.revision && !Terminal(db.tasks[id].status) &&
    !(t.action.Delete? && db.tasks[id].protocol != t.protocol && db.tasks[id].status.Awaiting? && Dropping(db, t))
  }

  predicate Eligible(db: Db, id: TaskId) {
    id in db.tasks &&
    var t := db.tasks[id];
    t.status.Awaiting? && (t.action.Delete? || !SettingsLag(db, t)) && !SettingsFence(db, t) &&
    t.node !in db.jobs && !NodeOccupied(db, t.node) &&
    forall e :: e in db.tasks ==> !HeldBackBy(db, t, e)
  }

  /** ORDER BY o.created_at, o.id, t.id: task i is dispatched before task j. */
  predicate Before(tasks: map<TaskId, Task>, i: TaskId, j: TaskId)
    requires i in tasks && j in tasks
  {
    var a, b := tasks[i], tasks[j];
    a.created < b.created || (a.created == b.created && (a.op < b.op || (a.op == b.op && i < j)))
  }

  /** The task the dispatch query returns. */
  ghost predicate FirstEligible(db: Db, id: TaskId) {
    Eligible(db, id) && forall j :: Eligible(db, j) && j != id ==> Before(db.tasks, id, j)
  }

  /** An ensure for a node, protocol or device that is no longer in service is retired undispatched. */
  predicate Refused(db: Db, t: Task) {
    t.action.Ensure? &&
    (t.node !in db.nodes || !db.nodes[t.node].enabled || t.protocol !in db.nodes[t.node].protocols ||
     (t.slot != 0 && (t.slot !in db.devices || !db.devices[t.slot].status.Active?)))
  }

  function ClaimTask(db: Db, id: TaskId): Db
    requires id in db.tasks
  {
    SetOp(SetTasks(db, {id}, Running), db.tasks[id].op, OpRunning)
  }

  // ----- OperationRepository.record -----

  datatype Peer = Peer(name: Name, active: bool, secret: nat)

  function OwnPeers(db: Db, p: ProfileId, protocol: Protocol): map<DeviceId, Peer> {
    map d | d in db.devices && db.devices[d].profile == p ::
      Peer(NameOf(db.devices[d], protocol), db.devices[d].status.Active?, db.devices[d].uuid)
  }

  function OldPeers(db: Db, p: ProfileId): map<DeviceId, Peer> {
    map s | s in db.peers && db.peers[s].profile == p :: Peer(db.peers[s].name, false, 0)
  }

  function Peers(db: Db, p: ProfileId, protocol: Protocol): map<DeviceId, Peer> {
    var own := OwnPeers(db, p, protocol);
    if protocol.Xray? || own == map[] then own else own + OldPeers(db, p)
  }

  predicate Granted(db: Db, p: ProfileId, n: NodeKey, protocol: Protocol) {
    p in db.grants && (n, protocol) in db.grants[p]
  }

  function ActionFor(db: Db, p: ProfileId, n: NodeKey, protocol: Protocol, peer: Peer): Act {
    if p in db.profiles && db.profiles[p].usable && n in db.nodes && db.nodes[n].enabled &&
       Granted(db, p, n, protocol) && peer.active
    then Ensure else Delete
  }

  predicate Actionable(db: Db, n: NodeKey) { n !in db.cleanups && n !in db.retirements }

  /** One inserted row of the operation `op` of profile `p`. */
  predicate MadeRow(db: Db, p: ProfileId, op: OpId, created: nat, targets: set<(NodeKey, Protocol)>, t: Task)
    requires p in db.profiles
  {
    (t.node, t.protocol) in targets && Actionable(db, t.node) &&
    t.slot in Peers(db, p, t.protocol) &&
    var peer := Peers(db, p, t.protocol)[t.slot];
    t == TaskFor(op, p, db.profiles[p].revision, created, t.node, t.protocol, t.slot, peer, ActionFor(db, p, t.node, t.protocol, peer))
  }

  function TaskFor(op: OpId, p: ProfileId, revision: nat, created: nat, n: NodeKey, protocol: Protocol, slot: DeviceId,
                   peer: Peer, action: Act): Task
  {
    Task(op, p, revision, created, n, protocol, slot, peer.name, action, Awaiting,
         if protocol.Xray? && action.Ensure? then peer.secret else 0)
  }

  predicate SameTarget(a: Task, b: Task) { a.node == b.node && a.protocol == b.protocol && a.slot == b.slot }

  /** Every actionable target gets one row per peer. */
  ghost predicate Covers(db: Db, p: ProfileId, targets: set<(NodeKey, Protocol)>, made: map<TaskId, Task>) {
    forall n, protocol, s :: (n, protocol) in targets && Actionable(db, n) && s in Peers(db, p, protocol) ==>
      exists id :: id in made && made[id].node == n && made[id].protocol == protocol && made[id].slot == s
  }

  /** Identifiers are fresh and the caller has raised the profile's revision. */
  ghost predicate NewOperation(db: Db, p: ProfileId, op: OpId, made: map<TaskId, Task>) {
    p in db.profiles && op !in db.ops && made.Keys !! db.tasks.Keys &&
    (forall id :: id in db.tasks && db.tasks[id].profile == p ==> db.tasks[id].revision < db.profiles[p].revision) &&
    (forall id :: id in db.tasks ==> db.tasks[id].op != op) &&
    (forall o :: o in db.ops && db.ops[o].profile == p ==> db.ops[o].revision < db.profiles[p].revision)
  }

  ghost predicate MadeRows(db: Db, p: ProfileId, op: OpId, created: nat, targets: set<(NodeKey, Protocol)>,
                           made: map<TaskId, Task>)
    requires p in db.profiles
  {
    (forall id :: id in made ==> MadeRow(db, p, op, created, targets, made[id])) &&
    (forall i, j :: i in made && j in made && i != j ==> !SameTarget(made[i], made[j]))
  }

  /** `made` are the rows record() inserts for `targets`. */
  ghost predicate Recordable(db: Db, p: ProfileId, op: OpId, created: nat, targets: set<(NodeKey, Protocol)>,
                             made: map<TaskId, Task>)
  {
    NewOperation(db, p, op, made) && MadeRows(db, p, op, created, targets, made) && Covers(db, p, targets, made)
  }

  function Record(db: Db, p: ProfileId, op: OpId, made: map<TaskId, Task>): Db
    requires p in db.profiles
  {
    db.(tasks := db.tasks + made,
        ops := db.ops[op := Op(p, db.profiles[p].revision, if made == map[] then NoTargets else OpAwaiting)])
  }

  predicate HasRow(db: Db, op: OpId, n: NodeKey, protocol: Protocol, slot: DeviceId) {
    exists id :: id in db.tasks && db.tasks[id].op == op && db.tasks[id].node == n && db.tasks[id].protocol == protocol &&
                 db.tasks[id].slot == slot
  }

  /** The operation has a row for every peer of the profile on every actionable target it has or had. */
  ghost predicate OpCovers(db: Db, p: ProfileId, op: OpId) {
    forall n, protocol, slot :: (n, protocol) in Targets(db, p) && Actionable(db, n) && slot in Peers(db, p, protocol) ==>
      HasRow(db, op, n, protocol, slot)
  }

  /** OperationRepository.targets: granted targets and every target ever recorded. */
  function Targets(db: Db, p: ProfileId): set<(NodeKey, Protocol)> {
    (if p in db.grants then db.grants[p] else {}) +
    (set id | id in db.tasks && db.tasks[id].profile == p :: (db.tasks[id].node, db.tasks[id].protocol))
  }
}
