/** Config issuance: a hand-out is bound to the revisions that were current when it was requested. */
module Issuance {
  import opened Tables
  import opened OutboxRun
  import opened OutboxInvariants
  import opened OutboxTables
  import opened OutboxSteps
  import opened OutboxRecord
  import opened OutboxTheorems
  import opened Retirement

  datatype Denial = RestoreInProgress | ResourceNotFound | GrantRevoked | ProfileUnusable | NodeSettingsPending |
    ConfigNotSupported | NodeDraining | DeviceUnavailable | DeviceRequired | ProfileNotSynced | ConfigStale |
    ConfigNotReady | ConfigExpired | NotPermitted | NodeAgentUnavailable | IdempotencyConflict

  datatype Result<+T> = Ok(value: T) | Denied(reason: Denial)

  /** What is asked for. */
  datatype Target = Target(profile: ProfileId, node: NodeKey, protocol: Protocol, transport: nat, device: DeviceId)
  datatype Stamp = Stamp(profile: nat, node: nat, device: nat)

  /** The columns _current reads that the task tables do not hold. */
  datatype Extras = Extras(restoring: bool, served: bool, bundle: bool)

  /** The newest row of the device on the node and protocol: an ensure that succeeded at the profile's revision. */
  ghost predicate Synced(db: Db, t: Target) {
    t.profile in db.profiles &&
    exists id :: OnTarget(db.tasks, t, id) && NewestOnLine(db.tasks, t.profile, t.device, id) && Confirms(db, t.profile, id)
  }

  predicate Confirms(db: Db, p: ProfileId, id: TaskId)
    requires p in db.profiles && id in db.tasks
  {
    db.tasks[id].revision == db.profiles[p].revision && db.tasks[id].action.Ensure? && db.tasks[id].status.Succeeded?
  }

  /** A settings task of the node is not finished. */
  predicate Unfinished(db: Db, n: NodeKey) {
    exists x :: x in db.settings && db.settings[x].node == n && !Terminal(db.settings[x].status)
  }

  /** The node is in service with its saved settings applied and nothing else under way. */
  predicate NodeReady(db: Db, n: NodeKey) {
    n in db.nodes && db.nodes[n].enabled && db.nodes[n].desired == db.nodes[n].applied && n !in db.jobs && !Unfinished(db, n)
  }

  predicate ActiveDevice(db: Db, p: ProfileId, d: DeviceId) {
    d in db.devices && db.devices[d].profile == p && db.devices[d].status.Active?
  }

  /** Everything _current demands. */
  ghost predicate InForce(db: Db, x: Extras, t: Target) {
    !x.restoring && t.profile in db.profiles && Granted(db, t.profile, t.node, t.protocol) && db.profiles[t.profile].usable &&
    NodeReady(db, t.node) && t.protocol in db.nodes[t.node].protocols && x.served && t.node !in db.drains &&
    ActiveDevice(db, t.profile, t.device) && Synced(db, t) && (t.protocol.Awg? ==> x.bundle)
  }

  /** The row is the peer's last on its node, by revision, then creation, then id, and its ensure succeeded at the profile's
      revision. */
  ghost predicate LastEnsured(db: Db, t: Target, id: TaskId)
    requires t.profile in db.profiles
  {
    id in db.tasks && db.tasks[id].profile == t.profile && db.tasks[id].node == t.node && db.tasks[id].protocol == t.protocol &&
    db.tasks[id].slot == t.device && db.tasks[id].action == Ensure && db.tasks[id].status == Succeeded &&
    db.tasks[id].revision == db.profiles[t.profile].revision &&
    forall j | j in db.tasks && j != id && db.tasks[j].profile == t.profile && db.tasks[j].node == t.node &&
               db.tasks[j].protocol == t.protocol && db.tasks[j].slot == t.device
      :: db.tasks[j].revision < db.tasks[id].revision ||
         (db.tasks[j].revision == db.tasks[id].revision &&
          (db.tasks[j].created < db.tasks[id].created || (db.tasks[j].created == db.tasks[id].created && j < id)))
  }

  lemma SyncedRow(db: Db, t: Target, id: TaskId)
    requires t.profile in db.profiles
    ensures OnTarget(db.tasks, t, id) && NewestOnLine(db.tasks, t.profile, t.device, id) && Confirms(db, t.profile, id) <==>
            LastEnsured(db, t, id)
  {
  }

  lemma SyncedExactly(db: Db, t: Target)
    ensures Synced(db, t) <==> t.profile in db.profiles && exists id :: LastEnsured(db, t, id)
  {
    if t.profile in db.profiles {
      forall id
        ensures OnTarget(db.tasks, t, id) && NewestOnLine(db.tasks, t.profile, t.device, id) && Confirms(db, t.profile, id) <==>
                LastEnsured(db, t, id)
      {
        SyncedRow(db, t, id);
      }
    }
  }

  /** When a config is handed out at all: the profile is usable and granted the target, the node is in service, up to date,
      not drained and has no unfinished job or settings task, the device is active and its peer was last ensured at the
      profile's revision. */
  lemma InForceExactly(db: Db, x: Extras, t: Target)
    ensures InForce(db, x, t) <==>
      !x.restoring && x.served && (t.protocol == Awg ==> x.bundle) &&
      t.profile in db.profiles && db.profiles[t.profile].usable &&
      t.profile in db.grants && (t.node, t.protocol) in db.grants[t.profile] &&
      t.node in db.nodes && db.nodes[t.node].enabled && db.nodes[t.node].desired == db.nodes[t.node].applied &&
      t.protocol in db.nodes[t.node].protocols && t.node !in db.jobs && t.node !in db.drains &&
      (forall s :: s in db.settings && db.settings[s].node == t.node ==>
         db.settings[s].status == Succeeded || db.settings[s].status == Superseded) &&
      t.device in db.devices && db.devices[t.device].profile == t.profile && db.devices[t.device].status == Active &&
      exists id :: LastEnsured(db, t, id)
  {
    SyncedExactly(db, t);
  }

  function StampOf(db: Db, t: Target): Stamp
    requires t.profile in db.profiles && t.node in db.nodes && t.device in db.devices
  {
    Stamp(db.profiles[t.profile].revision, db.nodes[t.node].desired, db.devices[t.device].revision)
  }

  datatype Issue = Issue(account: AccountId, key: nat, target: Target, revisions: Stamp, status: Status,
                         expires: nat, result: Option<nat>)

  // ----- Counters that only grow -----

  /** Revisions never go back, devices are kept, and a node leaves only by retirement. */
  ghost predicate Counts(db: Db, db': Db) {
    Grows(db, db') &&
    (forall n :: n in db.retirements ==> n in db'.retirements) &&
    (forall n :: n in db.nodes ==> n in db'.retirements || (n in db'.nodes && db.nodes[n].desired <= db'.nodes[n].desired)) &&
    DevicesKept(db, db')
  }

  ghost predicate DevicesKept(db: Db, db': Db) {
    forall d :: d in db.devices ==> d in db'.devices && KeepsDevice(db.devices[d], db'.devices[d])
  }

  predicate KeepsDevice(a: Device, b: Device) {
    a.profile == b.profile && a.revision <= b.revision && (b.status.Active? ==> a.status.Active?) &&
    (a.revision == b.revision ==> a.awg == b.awg && a.xray == b.xray && a.uuid == b.uuid)
  }

  lemma CountsFurther(a: Db, b: Db, c: Db)
    requires Counts(a, b) && Counts(b, c)
    ensures Counts(a, c)
  {
  }

  lemma StepCountsNodes(s: System, a: Action, s': System)
    requires Next(s, a, s')
    ensures forall n :: n in s.db.retirements ==> n in s'.db.retirements
    ensures forall n :: n in s.db.nodes ==>
      n in s'.db.retirements || (n in s'.db.nodes && s.db.nodes[n].desired <= s'.db.nodes[n].desired)
  {
    if !a.Abandon? && !a.RetireNode? && !a.Environment? { NodesUntouched(s, a, s'); }
  }

  lemma NodesUntouched(s: System, a: Action, s': System)
    requires Next(s, a, s') && !a.Abandon? && !a.RetireNode? && !a.Environment?
    ensures s'.db.nodes == s.db.nodes && s'.db.retirements == s.db.retirements
  {
    if OnTasks(a) { TasksLeaveNodes(s, a, s'); }
  }

  lemma TasksLeaveNodes(s: System, a: Action, s': System)
    requires Next(s, a, s') && OnTasks(a) && !a.Abandon? && !a.RetireNode?
    ensures s'.db.nodes == s.db.nodes && s'.db.retirements == s.db.retirements
  {
  }

  lemma NewNamesKept(s: System, a: Action, s': System)
    requires Next(s, a, s') && (a.AddDevice? || a.RotateAwg?)
    ensures DevicesKept(s.db, s'.db) && Grows(s.db, s'.db)
  {
  }

  lemma SameNamesKept(db: Db, db': Db)
    requires SameNames(db, db')
    ensures DevicesKept(db, db')
  {
  }

  lemma OtherStepsKeep(s: System, a: Action, s': System)
    requires Next(s, a, s') && (a.Effect? || a.RecordOp? || a.PointDeletion?)
    ensures s'.db.devices == s.db.devices && s'.db.profiles == s.db.profiles
  {
  }

  lemma StepCounts(s: System, a: Action, s': System)
    requires Inv(s) && Next(s, a, s')
    ensures Counts(s.db, s'.db)
  {
    StepCountsNodes(s, a, s');
    if a.AddDevice? || a.RotateAwg? { NewNamesKept(s, a, s'); }
    else if OnTasks(a) { TaskSteps(s, a, s'); }
    else if OnOthers(a) { Asides(s, a, s'); SameNamesKept(s.db, s'.db); }
    else if a.BeginDeletion? { BeginFrames(s, a.p, s'); SameNamesKept(s.db, s'.db); }
    else { OtherStepsKeep(s, a, s'); }
  }

  lemma CountsAt(r: Run, i: nat)
    requires IsRun(r) && 0 < i < |r.states|
    ensures Counts(r.states[i - 1].db, r.states[i].db)
  {
    Reachable(r, i - 1);
    assert StepAt(r, i - 1);
    StepCounts(r.states[i - 1], r.actions[i - 1], r.states[i]);
  }

  lemma {:induction false} RunCounts(r: Run, i: nat, j: nat)
    requires IsRun(r) && i <= j < |r.states|
    ensures Counts(r.states[i].db, r.states[j].db)
    decreases j
  {
    if i == j {
    } else {
      RunCounts(r, i, j - 1);
      CountsAt(r, j);
      CountsFurther(r.states[i].db, r.states[j - 1].db, r.states[j].db);
    }
  }

  /** The service the target names is the same in both states. */
  ghost predicate Same(db: Db, db': Db, t: Target)
    requires t.profile in db.profiles && t.node in db.nodes && t.device in db.devices
  {
    t.profile in db'.profiles && t.node in db'.nodes && t.device in db'.devices &&
    db'.profiles[t.profile].revision == db.profiles[t.profile].revision && db'.nodes[t.node].desired == db.nodes[t.node].desired &&
    db'.devices[t.device].revision == db.devices[t.device].revision &&
    db'.devices[t.device].status.Active? && db'.devices[t.device].awg == db.devices[t.device].awg &&
    db'.devices[t.device].xray == db.devices[t.device].xray && db'.devices[t.device].uuid == db.devices[t.device].uuid
  }

  /** The target's peer is on the node, and an Xray client has the identity of the device. */
  ghost predicate OnNode(s: System, t: Target)
    requires t.device in s.db.devices
  {
    var k := PeerOf(s.db, t.device, t.node, t.protocol);
    k in s.w.remote && (t.protocol.Xray? ==> k in s.w.carried && s.w.carried[k] == s.db.devices[t.device].uuid)
  }

  /** A growing counter that reads the same at both ends did not move in between. */
  lemma Pinched(a: Db, b: Db, c: Db, t: Target)
    requires Counts(a, b) && Counts(b, c) && Homes(c)
    requires t.profile in a.profiles && t.node in a.nodes && t.device in a.devices
    requires t.profile in c.profiles && t.node in c.nodes && t.device in c.devices
    requires StampOf(a, t) == StampOf(c, t) && c.devices[t.device].status.Active?
    ensures Same(a, b, t)
  {
  }

  /** While the profile's revision is that of a confirmed ensure, the peer it names is on the node. */
  lemma ConfirmedIsPresent(s: System, id: TaskId)
    requires Inv(s) && id in s.db.tasks && s.db.tasks[id].action.Ensure? && s.db.tasks[id].status.Succeeded?
    requires Present(s.db, id) && s.db.tasks[id].node in s.db.nodes
    ensures KeyOf(s.db.tasks[id]) in s.w.remote && Carries(s, id)
  {
  }

  lemma ConfirmedStays(r: Run, i: nat, k: nat, t: Target, id: TaskId)
    requires IsRun(r) && i <= k < |r.states|
    requires OnTarget(r.states[i].db.tasks, t, id)
    requires t.profile in r.states[i].db.profiles && Confirms(r.states[i].db, t.profile, id)
    requires t.node in r.states[i].db.nodes && t.device in r.states[i].db.devices && Same(r.states[i].db, r.states[k].db, t)
    ensures OnNode(r.states[k], t)
  {
    RunPersists(r, i, k);
    Reachable(r, k);
    assert SameRow(r.states[i].db.tasks[id], r.states[k].db.tasks[id]);
    ConfirmedIsPresent(r.states[k], id);
    assert Bears(r.states[k].db, id, t.device) && CurrentSecret(r.states[k].db, id);
  }

  /** A config requested at i and handed out at j: from request to hand-out no revision moved, the device kept its
      names and its Xray identity and stayed active, and its peer was on the node, with that identity, in every state in
      between. */
  lemma HandedOutIsLive(r: Run, i: nat, k: nat, j: nat, x: Extras, y: Extras, t: Target)
    requires IsRun(r) && i <= k <= j < |r.states|
    requires InForce(r.states[i].db, x, t) && InForce(r.states[j].db, y, t)
    requires StampOf(r.states[i].db, t) == StampOf(r.states[j].db, t)
    ensures Same(r.states[i].db, r.states[k].db, t) && OnNode(r.states[k], t)
  {
    RunCounts(r, i, k);
    RunCounts(r, k, j);
    HomesAt(r, j);
    Pinched(r.states[i].db, r.states[k].db, r.states[j].db, t);
    var id :| OnTarget(r.states[i].db.tasks, t, id) && NewestOnLine(r.states[i].db.tasks, t.profile, t.device, id) &&
              Confirms(r.states[i].db, t.profile, id);
    ConfirmedStays(r, i, k, t, id);
  }

  lemma HomesAt(r: Run, j: nat)
    requires IsRun(r) && j < |r.states|
    ensures Homes(r.states[j].db)
  {
    Reachable(r, j);
  }

  // ----- The issuance rows -----

  /** Only the status and the stored answer of a row ever change. */
  predicate SameRequest(a: Issue, b: Issue) {
    a.account == b.account && a.key == b.key && a.target == b.target && a.revisions == b.revisions && a.expires == b.expires
  }

  ghost predicate KeepsRequests(rows: map<nat, Issue>, rows': map<nat, Issue>) {
    forall i :: i in rows ==> i in rows' && SameRequest(rows[i], rows'[i])
  }

  /** The row was requested in state i, when everything was in force at the revisions it froze. */
  ghost predicate RequestedAt(r: Run, i: nat, row: Issue) {
    i < |r.states| && exists x :: InForce(r.states[i].db, x, row.target) && StampOf(r.states[i].db, row.target) == row.revisions
  }

  /** Every row was requested in some state up to n. */
  ghost predicate Rooted(r: Run, n: nat, rows: map<nat, Issue>) {
    forall id :: id in rows ==> exists i: nat :: i <= n && RequestedAt(r, i, rows[id])
  }

  /** Claims, results and recoveries keep every row rooted, and so does time. */
  lemma StaysRooted(r: Run, n: nat, m: nat, rows: map<nat, Issue>, rows': map<nat, Issue>)
    requires Rooted(r, n, rows) && n <= m && rows'.Keys == rows.Keys && KeepsRequests(rows, rows')
    ensures Rooted(r, m, rows')
  {
    forall id | id in rows'
      ensures exists i: nat :: i <= m && RequestedAt(r, i, rows'[id])
    {
      var i: nat :| i <= n && RequestedAt(r, i, rows[id]);
      assert SameRequest(rows[id], rows'[id]);
      var x :| InForce(r.states[i].db, x, rows[id].target) && StampOf(r.states[i].db, rows[id].target) == rows[id].revisions;
      assert RequestedAt(r, i, rows'[id]);
    }
  }

  /** A request in state n roots its row. */
  lemma NewIsRooted(r: Run, n: nat, rows: map<nat, Issue>, id: nat, row: Issue, x: Extras)
    requires Rooted(r, n, rows) && n < |r.states| && InForce(r.states[n].db, x, row.target)
    requires StampOf(r.states[n].db, row.target) == row.revisions
    ensures Rooted(r, n, rows[id := row])
  {
    assert RequestedAt(r, n, row);
  }

  /** Whatever happened to the issuance rows since: if the last recheck of a hand-out passes in state n, then since the
      state its row was requested in, the peer has been on the node under the device's present names and identity. */
  lemma ArtifactIsLive(r: Run, n: nat, rows: map<nat, Issue>, id: nat, y: Extras) returns (i: nat)
    requires IsRun(r) && n < |r.states| && Rooted(r, n, rows) && id in rows
    requires InForce(r.states[n].db, y, rows[id].target) && StampOf(r.states[n].db, rows[id].target) == rows[id].revisions
    ensures i <= n && RequestedAt(r, i, rows[id])
    ensures forall k: nat :: i <= k <= n ==> LiveAt(r, i, k, rows[id].target)
  {
    var j: nat :| j <= n && RequestedAt(r, j, rows[id]);
    i := j;
    var t := rows[id].target;
    var x :| InForce(r.states[i].db, x, t) && StampOf(r.states[i].db, t) == rows[id].revisions;
    forall k: nat | i <= k <= n
      ensures LiveAt(r, i, k, t)
    {
      HandedOutIsLive(r, i, k, n, x, y, t);
    }
  }

  /** In state k the target is as it was in state i, and on the node. */
  ghost predicate LiveAt(r: Run, i: nat, k: nat, t: Target) {
    i < |r.states| && k < |r.states| && t.profile in r.states[i].db.profiles && t.node in r.states[i].db.nodes &&
    t.device in r.states[i].db.devices && Same(r.states[i].db, r.states[k].db, t) && OnNode(r.states[k], t)
  }

  predicate OnTarget(tasks: map<TaskId, Task>, t: Target, i: TaskId) {
    InSlot(tasks, t.profile, t.device, i) && tasks[i].node == t.node && tasks[i].protocol == t.protocol
  }

  ghost predicate NoneActive(db: Db, p: ProfileId) { forall d :: !ActiveDevice(db, p, d) }

  ghost predicate OnlyActive(db: Db, p: ProfileId, d: DeviceId) {
    ActiveDevice(db, p, d) && forall e :: ActiveDevice(db, p, e) ==> e == d
  }

  /** Row i answers the account's command `key`. */
  predicate Answers(rows: map<nat, Issue>, i: nat, account: AccountId, key: nat) {
    i in rows && rows[i].account == account && rows[i].key == key
  }

  /** UNIQUE(actor_account_id, command_key). */
  ghost predicate KeyedOnce(rows: map<nat, Issue>) {
    forall i, j :: i in rows && Answers(rows, j, rows[i].account, rows[i].key) ==> i == j
  }

  ghost predicate Fresh(rows: map<nat, Issue>, account: AccountId, key: nat) { forall i :: !Answers(rows, i, account, key) }

  lemma NewKeyedOnce(rows: map<nat, Issue>, id: nat, row: Issue)
    requires KeyedOnce(rows) && id !in rows && Fresh(rows, row.account, row.key)
    ensures KeyedOnce(rows[id := row])
  {
    var all := rows[id := row];
    forall i, j | i in all && Answers(all, j, all[i].account, all[i].key)
      ensures i == j
    {
      if j != id { assert Answers(rows, j, all[i].account, all[i].key); }
      if i != id && j == id { assert Answers(rows, i, row.account, row.key); }
    }
  }

  class Desk {
    var rows: map<nat, Issue>

    constructor ()
      ensures rows == map[]
    {
      rows := map[];
    }

    /** select_active without a chosen device: there must be exactly one active device. */
    method OnlyActiveDevice(db: Db, p: ProfileId) returns (r: Result<DeviceId>)
      ensures r.Ok? ==> OnlyActive(db, p, r.value)
      ensures r.Denied? ==> forall d :: !OnlyActive(db, p, d)
      ensures r.Denied? ==> r.reason == if NoneActive(db, p) then DeviceUnavailable else DeviceRequired
    {
      var active := set d | d in db.devices && ActiveDevice(db, p, d);
      assert forall d :: ActiveDevice(db, p, d) <==> d in active;
      if active == {} { return Denied(DeviceUnavailable); }
      var d :| d in active;
      if active == {d} { return Ok(d); }
      var e :| e in active && e != d;
      return Denied(DeviceRequired);
    }

    /** DeviceRepository.select_active. */
    method SelectActive(db: Db, p: ProfileId, device: Option<DeviceId>) returns (r: Result<DeviceId>)
      ensures r.Ok? ==> ActiveDevice(db, p, r.value) && (device.None? ==> OnlyActive(db, p, r.value))
      ensures device.Some? ==>
        r == if device.value !in db.devices || db.devices[device.value].profile != p then Denied(ResourceNotFound)
             else if !db.devices[device.value].status.Active? then Denied(DeviceUnavailable) else Ok(device.value)
      ensures device.None? && r.Denied? ==> forall d :: !OnlyActive(db, p, d)
      ensures r.Denied? ==> r.reason.ResourceNotFound? || r.reason.DeviceUnavailable? || r.reason.DeviceRequired?
    {
      if device.None? {
        r := OnlyActiveDevice(db, p);
        return;
      }
      if device.value !in db.devices || db.devices[device.value].profile != p { return Denied(ResourceNotFound); }
      return if db.devices[device.value].status.Active? then Ok(device.value) else Denied(DeviceUnavailable);
    }

    /** The query for the newest row of the device on the node and protocol. */
    method Latest(db: Db, t: Target) returns (found: Option<TaskId>)
      ensures found.Some? ==> OnTarget(db.tasks, t, found.value) && NewestOnLine(db.tasks, t.profile, t.device, found.value)
      ensures found.None? ==> forall i :: !OnTarget(db.tasks, t, i)
    {
      var all := set i | i in db.tasks && OnTarget(db.tasks, t, i);
      assert forall i :: OnTarget(db.tasks, t, i) <==> i in all;
      found := None;
      var rest := all;
      while rest != {}
        invariant rest <= all && (found.None? ==> rest == all) && (found.Some? ==> found.value in all)
        invariant found.Some? ==> forall j :: j in all && j !in rest && j != found.value ==> After(db.tasks, found.value, j)
        decreases rest
      {
        var j :| j in rest;
        if found.None? || After(db.tasks, j, found.value) { found := Some(j); }
        rest := rest - {j};
      }
    }

    /** _current: the reason to refuse, or the revisions in force. */
    method Current(db: Db, x: Extras, t: Target) returns (r: Result<Stamp>)
      ensures r.Ok? <==> InForce(db, x, t)
      ensures r.Ok? ==> r.value == StampOf(db, t)
      ensures r == Denied(RestoreInProgress) <==> x.restoring
      ensures r == Denied(GrantRevoked) <==>
        !x.restoring && t.profile in db.profiles && (t.profile !in db.grants || (t.node, t.protocol) !in db.grants[t.profile])
      ensures r == Denied(ProfileUnusable) <==>
        !x.restoring && t.profile in db.profiles && !db.profiles[t.profile].usable &&
        t.profile in db.grants && (t.node, t.protocol) in db.grants[t.profile]
      ensures r != Denied(IdempotencyConflict)
      ensures r == Denied(ProfileNotSynced) ==> !Synced(db, t) || (t.protocol.Awg? && !x.bundle)
    {
      if x.restoring { return Denied(RestoreInProgress); }
      if t.profile !in db.profiles { return Denied(ResourceNotFound); }
      if !Granted(db, t.profile, t.node, t.protocol) { return Denied(GrantRevoked); }
      if !db.profiles[t.profile].usable { return Denied(ProfileUnusable); }
      if t.node !in db.nodes || !db.nodes[t.node].enabled || db.nodes[t.node].desired != db.nodes[t.node].applied {
        return Denied(NodeSettingsPending);
      }
      if t.node in db.jobs { return Denied(NodeSettingsPending); }
      if t.protocol !in db.nodes[t.node].protocols || !x.served { return Denied(ConfigNotSupported); }
      if t.node in db.drains { return Denied(NodeDraining); }
      if Unfinished(db, t.node) { return Denied(NodeSettingsPending); }
      var device := SelectActive(db, t.profile, Some(t.device));
      if device.Denied? { return Denied(device.reason); }
      var latest := Latest(db, t);
      if latest.None? || !Confirms(db, t.profile, latest.value) { return Denied(ProfileNotSynced); }
      if t.protocol.Awg? && !x.bundle { return Denied(ProfileNotSynced); }
      return Ok(StampOf(db, t));
    }

    /** request: a repeated key gives the same row for the same target and a conflict for another. permitted says whether
        the caller may issue configs of the profile now; t is what was asked with the chosen device. */
    method Request(db: Db, x: Extras, permitted: bool, account: AccountId, key: nat, asked: Target, device: Option<DeviceId>,
                   id: nat, now: nat)
      returns (r: Result<nat>, t: Target)
      requires id !in rows && KeyedOnce(rows)
      modifies this
      ensures t == asked.(device := t.device) && (device.Some? ==> t.device == device.value)
      ensures r.Ok? ==> permitted && ActiveDevice(db, t.profile, t.device) && (device.None? ==> OnlyActive(db, t.profile, t.device))
      ensures KeyedOnce(rows) && (r.Ok? ==> Answers(rows, r.value, account, key) && rows[r.value].target == t)
      ensures r.Denied? || r.value in old(rows) ==> rows == old(rows)
      ensures r.Ok? && r.value !in old(rows) ==> r.value == id && InForce(db, x, t) && Fresh(old(rows), account, key)
      ensures r.Ok? && r.value !in old(rows) ==>
        rows == old(rows)[id := Issue(account, key, t, StampOf(db, t), Awaiting, now + 900, None)]
      ensures r == Denied(IdempotencyConflict) ==> exists i :: Answers(rows, i, account, key) && rows[i].target != t
      ensures KeepsRequests(old(rows), rows)
    {
      t := if device.Some? then asked.(device := device.value) else asked;
      if !permitted { return Denied(NotPermitted), t; }
      var chosen := SelectActive(db, asked.profile, device);
      if chosen.Denied? { return Denied(chosen.reason), t; }
      t := asked.(device := chosen.value);
      var previous := set i | i in rows && Answers(rows, i, account, key);
      assert forall i :: Answers(rows, i, account, key) <==> i in previous;
      if previous != {} {
        var i :| i in previous;
        return if rows[i].target == t then Ok(i) else Denied(IdempotencyConflict), t;
      }
      var current := Current(db, x, t);
      if current.Denied? { return Denied(current.reason), t; }
      NewKeyedOnce(rows, id, Issue(account, key, t, current.value, Awaiting, now + 900, None));
      rows := rows[id := Issue(account, key, t, current.value, Awaiting, now + 900, None)];
      return Ok(id), t;
    }

    /** _current followed by _check_revisions against the row. */
    method Recheck(db: Db, x: Extras, row: Issue) returns (r: Option<Denial>)
      ensures r.None? <==> InForce(db, x, row.target) && StampOf(db, row.target) == row.revisions
    {
      var current := Current(db, x, row.target);
      if current.Denied? { return Some(current.reason); }
      return if current.value == row.revisions then None else Some(ConfigStale);
    }

    method Claim(id: nat) returns (claimed: bool)
      modifies this
      ensures claimed <==> id in old(rows) && old(rows)[id].status.Awaiting?
      ensures rows.Keys == old(rows).Keys && KeepsRequests(old(rows), rows)
      ensures rows == if claimed then old(rows)[id := old(rows)[id].(status := Running)] else old(rows)
    {
      claimed := id in rows && rows[id].status.Awaiting?;
      if claimed { rows := rows[id := rows[id].(status := Running)]; }
    }

    /** The rest of run_one: both checks around the remote read, which answers `live` or fails. */
    method Complete(id: nat, before: Db, x: Extras, live: Option<nat>, after: Db, y: Extras, now: nat)
      requires id in rows
      modifies this
      ensures rows.Keys == old(rows).Keys && forall i :: i in rows && i != id ==> rows[i] == old(rows)[i]
      ensures KeepsRequests(old(rows), rows)
      ensures !old(rows)[id].status.Running? ==> rows == old(rows)
      ensures old(rows)[id].status.Running? ==>
        (rows[id].status.Succeeded? <==>
           now < rows[id].expires && live.Some? &&
           InForce(before, x, rows[id].target) && StampOf(before, rows[id].target) == rows[id].revisions &&
           InForce(after, y, rows[id].target) && StampOf(after, rows[id].target) == rows[id].revisions) &&
        (rows[id].status.Succeeded? ==> rows[id].result == live) &&
        (rows[id].status.Succeeded? || rows[id].status.Blocked? || rows[id].status.Superseded?)
    {
      var row := rows[id];
      if !row.status.Running? { return; }
      var end := Superseded;
      var result := row.result;
      if now < row.expires {
        var first := Recheck(before, x, row);
        if first.None? {
          if live.None? {
            end := Blocked;
          } else {
            var second := Recheck(after, y, row);
            if second.None? { end, result := Succeeded, live; }
          }
        }
      }
      rows := rows[id := row.(status := end, result := result)];
    }

    /** After a crash no row is running and none of those that were can succeed any more: only a running row completes. */
    method Recover()
      modifies this
      ensures rows.Keys == old(rows).Keys && KeepsRequests(old(rows), rows)
      ensures forall i :: i in rows ==> !rows[i].status.Running? && (rows[i].status.Succeeded? <==> old(rows)[i].status.Succeeded?)
      ensures forall i :: i in rows && !old(rows)[i].status.Running? ==> rows[i] == old(rows)[i]
    {
      rows := map i | i in rows :: if rows[i].status.Running? then rows[i].(status := Blocked) else rows[i];
    }

    /** artifact: handed out exactly when the caller may read it before and after, the row succeeded in time, the remote read answers what was stored, and
        everything is still in force at the row's revisions before and after that read. */
    method Artifact(id: nat, mayRead: bool, before: Db, x: Extras, live: Option<nat>, mayStill: bool, after: Db, y: Extras, now: nat)
      returns (r: Result<nat>)
      ensures r.Ok? <==>
        mayRead && mayStill && id in rows && rows[id].status.Succeeded? && now < rows[id].expires && live.Some? && live == rows[id].result &&
        InForce(before, x, rows[id].target) && StampOf(before, rows[id].target) == rows[id].revisions &&
        InForce(after, y, rows[id].target) && StampOf(after, rows[id].target) == rows[id].revisions
      ensures r.Ok? ==> Some(r.value) == rows[id].result
    {
      if id !in rows { return Denied(ResourceNotFound); }
      if !mayRead { return Denied(NotPermitted); }
      var row := rows[id];
      var device := SelectActive(before, row.target.profile, Some(row.target.device));
      if device.Denied? { return Denied(device.reason); }
      if before.devices[device.value].revision != row.revisions.device { return Denied(ConfigStale); }
      if !row.status.Succeeded? { return Denied(ConfigNotReady); }
      if now >= row.expires { return Denied(ConfigExpired); }
      var first := Recheck(before, x, row);
      if first.Some? { return Denied(first.value); }
      if live.None? { return Denied(NodeAgentUnavailable); }
      if live != row.result { return Denied(ConfigStale); }
      if !mayStill { return Denied(NotPermitted); }
      var second := Recheck(after, y, row);
      if second.Some? { return Denied(second.value); }
      return Ok(live.value);
    }
  }
}
