/** The controller's tables as fields, and its transactions as methods on them. */
module Executor {
  import opened Tables
  import opened OutboxRun
  import opened Transactions
  import opened OutboxRules

  datatype RepairResult = NotFound | NotBlocked | AgentFailed | Answered(op: OpId)
  datatype CommandCheck = NoSuchDevice | ProfileDeleting | DeviceInactive | Unusable | LimitReached | RevisionConflict | Ready
  datatype ClaimResult = Idle | Withdrawn(id: TaskId) | Claimed(id: TaskId)

  /** Both settle verdicts depend on the tasks and on which nodes are verified. */
  lemma VerdictFrame(db: Db, db': Db, p: ProfileId, slot: DeviceId)
    requires db'.tasks == db.tasks && db'.retirements == db.retirements
    ensures NothingUncertain(db', p, slot) == NothingUncertain(db, p, slot)
    ensures NewestRemoved(db', p, slot) == NewestRemoved(db, p, slot)
  {
  }

  /** rows lists the slot's rows, newest first. */
  ghost predicate Listing(tasks: map<TaskId, Task>, p: ProfileId, slot: DeviceId, rows: seq<TaskId>) {
    (forall i :: i in rows <==> InSlot(tasks, p, slot, i)) &&
    (forall i, j :: 0 <= i < j < |rows| ==> After(tasks, rows[i], rows[j]))
  }

  /** What setdefault keeps per node after the first i listed rows. */
  function PerNode(tasks: map<TaskId, Task>, rows: seq<TaskId>, i: nat): map<NodeKey, TaskId>
    requires i <= |rows| && forall id :: id in rows ==> id in tasks
  {
    if i == 0 then map[]
    else
      var before := PerNode(tasks, rows, i - 1);
      if tasks[rows[i - 1]].node in before then before else before[tasks[rows[i - 1]].node := rows[i - 1]]
  }

  /** rows[k] is the first listed row of node n. */
  predicate FirstAt(tasks: map<TaskId, Task>, rows: seq<TaskId>, k: nat, n: NodeKey) {
    k < |rows| && rows[k] in tasks && tasks[rows[k]].node == n &&
    forall j :: 0 <= j < k ==> rows[j] in tasks && tasks[rows[j]].node != n
  }

  lemma {:induction false} PerNodeIsFirst(tasks: map<TaskId, Task>, rows: seq<TaskId>, i: nat)
    requires i <= |rows| && forall id :: id in rows ==> id in tasks
    ensures forall n :: n in PerNode(tasks, rows, i) ==>
              exists k :: 0 <= k < i && FirstAt(tasks, rows, k, n) && PerNode(tasks, rows, i)[n] == rows[k]
    ensures forall k :: 0 <= k < i ==> tasks[rows[k]].node in PerNode(tasks, rows, i)
  {
    if i == 0 {
    } else {
      PerNodeIsFirst(tasks, rows, i - 1);
      var before, n := PerNode(tasks, rows, i - 1), tasks[rows[i - 1]].node;
      if n !in before { assert FirstAt(tasks, rows, i - 1, n); }
    }
  }

  lemma KeptIsNewest(tasks: map<TaskId, Task>, p: ProfileId, slot: DeviceId, rows: seq<TaskId>, k: nat, n: NodeKey)
    requires Listing(tasks, p, slot, rows) && FirstAt(tasks, rows, k, n)
    ensures NewestOnNode(tasks, p, slot, rows[k]) && tasks[rows[k]].node == n
  {
    forall j | InSlot(tasks, p, slot, j) && tasks[j].node == n && j != rows[k]
      ensures After(tasks, rows[k], j)
    {
      var m :| 0 <= m < |rows| && rows[m] == j;
    }
  }

  /** The kept row of a node is the newest one there. */
  lemma LatestIsNewest(tasks: map<TaskId, Task>, p: ProfileId, slot: DeviceId, rows: seq<TaskId>, latest: map<NodeKey, TaskId>)
    requires Listing(tasks, p, slot, rows) && latest == PerNode(tasks, rows, |rows|)
    ensures forall n :: n in latest ==> NewestOnNode(tasks, p, slot, latest[n]) && tasks[latest[n]].node == n
    ensures forall id :: NewestOnNode(tasks, p, slot, id) ==> tasks[id].node in latest && latest[tasks[id].node] == id
  {
    PerNodeIsFirst(tasks, rows, |rows|);
    forall n | n in latest
      ensures NewestOnNode(tasks, p, slot, latest[n]) && tasks[latest[n]].node == n
    {
      var k :| 0 <= k < |rows| && FirstAt(tasks, rows, k, n) && latest[n] == rows[k];
      KeptIsNewest(tasks, p, slot, rows, k, n);
    }
    forall id | NewestOnNode(tasks, p, slot, id)
      ensures tasks[id].node in latest && latest[tasks[id].node] == id
    {
      var m :| 0 <= m < |rows| && rows[m] == id;
      assert NewestOnNode(tasks, p, slot, latest[tasks[id].node]);
    }
  }

  /** Row id keeps a deletion open. */
  predicate Undecided(db: Db, id: TaskId) {
    id in db.tasks && !IsVerified(db, db.tasks[id].node) && Uncertain(db.tasks[id].status)
  }

  /** The device after the given accounts have been released. */
  ghost function ReleasedDevice(db: Db, d: DeviceId, released: set<AccountId>): Device
    requires d in db.devices
  {
    if db.devices[d].profile in db.profiles && db.profiles[db.devices[d].profile].owner.Some? &&
       db.profiles[db.devices[d].profile].owner.value in released
    then db.devices[d].(status := Retired) else db.devices[d]
  }

  lemma ScanDecides(db: Db, p: ProfileId, slot: DeviceId, rows: seq<TaskId>)
    requires Listing(db.tasks, p, slot, rows)
    ensures NothingUncertain(db, p, slot) <==> !exists k :: 0 <= k < |rows| && Undecided(db, rows[k])
  {
  }

  ghost function ConfirmedSet(db: Db): set<DeviceId> {
    set d | d in db.devices && db.devices[d].status.Deleting? && DeletionConfirmed(db, d)
  }

  function RetiredAll(db: Db, ds: set<DeviceId>): Db {
    db.(devices := map d | d in db.devices :: if d in ds then db.devices[d].(status := Retired) else db.devices[d])
  }

  lemma SettleIsRetire(db: Db)
    ensures SettleDevices(db) == RetiredAll(db, ConfirmedSet(db))
  {
  }

  /** The tables while the devices in todo are still to be looked at. */
  function RetiredBut(db: Db, ok: set<DeviceId>, todo: set<DeviceId>): Db { RetiredAll(db, ok - todo) }

  lemma ConfirmedAreDeleting(db: Db, todo: set<DeviceId>)
    requires forall d :: d in db.devices && db.devices[d].status.Deleting? ==> d in todo
    ensures ConfirmedSet(db) <= todo
  {
  }

  lemma RetiredNone(db: Db, ok: set<DeviceId>, todo: set<DeviceId>)
    requires ok <= todo
    ensures RetiredBut(db, ok, todo) == db && RetiredBut(db, ok, {}) == RetiredAll(db, ok)
  {
  }

  lemma RetireOne(db: Db, ok: set<DeviceId>, todo: set<DeviceId>, d: DeviceId)
    requires d in db.devices && d in todo
    ensures var was := RetiredBut(db, ok, todo).devices;
      d in was && was[d] == db.devices[d] &&
      RetiredBut(db, ok, todo - {d}).devices == if d in ok then was[d := was[d].(status := Retired)] else was
  {
  }

  /** The tables while the old peers in todo are still to be looked at. */
  ghost function ForgottenBut(db: Db, todo: set<DeviceId>): Db {
    db.(peers := map s | s in db.peers && (s in todo || !PeerForgettable(db, s)) :: db.peers[s])
  }

  lemma ForgottenNone(db: Db)
    ensures ForgottenBut(db, db.peers.Keys) == db && ForgottenBut(db, {}) == SettlePeers(db)
  {
  }

  lemma ForgetOne(db: Db, todo: set<DeviceId>, s: DeviceId)
    requires s in todo && s in db.peers
    ensures var was := ForgottenBut(db, todo).peers;
      s in was && was[s] == db.peers[s] &&
      ForgottenBut(db, todo - {s}).peers == if PeerForgettable(db, s) then was - {s} else was
  {
  }

  /** The tables after the given accounts have been released. */
  ghost function ReleasedAll(db: Db, released: set<AccountId>): Db
    requires released <= db.accounts.Keys
  {
    db.(accounts := map a | a in db.accounts ::
          if a in released then Account(db.accounts[a].revision + 1, {}, {}, Completed) else db.accounts[a],
        devices := map d | d in db.devices :: ReleasedDevice(db, d, released))
  }

  /** Releasing one account. */
  function Release(db: Db, a: AccountId): Db
    requires a in db.accounts
  {
    db.(accounts := db.accounts[a := Account(db.accounts[a].revision + 1, {}, {}, Completed)],
        devices := map d | d in db.devices ::
          if db.devices[d].profile in db.profiles && db.profiles[db.devices[d].profile].owner == Some(a)
          then db.devices[d].(status := Retired) else db.devices[d])
  }

  lemma ReleaseOne(db: Db, released: set<AccountId>, a: AccountId)
    requires released <= db.accounts.Keys && a in db.accounts && a !in released
    ensures Release(ReleasedAll(db, released), a) == ReleasedAll(db, released + {a})
  {
  }

  lemma ReadyIsReleasable(db: Db, ready: set<AccountId>)
    requires ready == set a | a in db.accounts && db.accounts[a].deletion.Pending? &&
                              forall p :: p in db.profiles ==> Owns(db, a, p) ==> Revoked(db, p)
    ensures ReleasedAll(db, ready) == SettleAccounts(db)
  {
  }

  lemma NobodyReleased(db: Db)
    ensures ReleasedAll(db, {}) == db
  {
  }

  /** One row per peer of every actionable target. */
  function Wanted(db: Db, p: ProfileId, targets: set<(NodeKey, Protocol)>): set<(NodeKey, Protocol, DeviceId)> {
    set t, slot | t in targets && Actionable(db, t.0) && slot in Peers(db, p, t.1) :: (t.0, t.1, slot)
  }

  predicate IsFor(t: Task, w: (NodeKey, Protocol, DeviceId)) { t.node == w.0 && t.protocol == w.1 && t.slot == w.2 }

  /** The row record() inserts for one peer. */
  function NewRow(db: Db, p: ProfileId, op: OpId, created: nat, w: (NodeKey, Protocol, DeviceId)): Task
    requires p in db.profiles && w.2 in Peers(db, p, w.1)
  {
    var peer := Peers(db, p, w.1)[w.2];
    TaskFor(op, p, db.profiles[p].revision, created, w.0, w.1, w.2, peer, ActionFor(db, p, w.0, w.1, peer))
  }

  /** A crash frees nothing: what was running keeps holding its node, so recovery makes no row eligible that was not,
      and a second recovery changes nothing. */
  lemma RecoveryFreesNothing(db: Db, i: TaskId)
    ensures Eligible(RecoverAll(db), i) <==> Eligible(db, i)
    ensures RecoverAll(RecoverAll(db)) == RecoverAll(db)
    ensures i in db.tasks && db.tasks[i].status.Running? ==> RecoverAll(db).tasks[i] == db.tasks[i].(status := Blocked)
    ensures i in db.tasks && !db.tasks[i].status.Running? ==> RecoverAll(db).tasks[i] == db.tasks[i]
  {
    RecoverTwice(db);
    if i in db.tasks && db.tasks[i].status.Awaiting? {
      RecoverOccupied(db, db.tasks[i].node);
      forall e
        ensures HeldBackBy(RecoverAll(db), db.tasks[i], e) <==> HeldBackBy(db, db.tasks[i], e)
      {
        RecoverHeld(db, db.tasks[i], e);
      }
      RecoverSettings(db, db.tasks[i]);
    }
  }

  lemma RecoverTwice(db: Db)
    ensures RecoverAll(RecoverAll(db)) == RecoverAll(db)
  {
    assert RecoverAll(RecoverAll(db)).tasks == RecoverAll(db).tasks;
    assert RecoverAll(RecoverAll(db)).ops == RecoverAll(db).ops;
  }

  lemma RecoverOccupied(db: Db, n: NodeKey)
    ensures NodeOccupied(RecoverAll(db), n) <==> NodeOccupied(db, n)
  {
    var tasks := RecoverAll(db).tasks;
    assert tasks.Keys == db.tasks.Keys;
    assert forall id :: id in db.tasks ==> tasks[id].node == db.tasks[id].node && (Occupies(tasks[id].status) <==> Occupies(db.tasks[id].status));
  }

  lemma RecoverHeld(db: Db, t: Task, e: TaskId)
    ensures HeldBackBy(RecoverAll(db), t, e) <==> HeldBackBy(db, t, e)
  {
  }

  lemma RecoverSettings(db: Db, t: Task)
    ensures SettingsFence(RecoverAll(db), t) <==> SettingsFence(db, t)
    ensures SettingsLag(RecoverAll(db), t) <==> SettingsLag(db, t)
  {
  }

  /** Listed rows that are blocked and that the journal reports as done. */
  function Confirmed(db: Db, rows: seq<TaskId>, confirmed: set<TaskId>): set<TaskId>
    requires forall i :: i in rows ==> i in db.tasks
  {
    set i | i in rows && i in confirmed && db.tasks[i].status.Blocked?
  }

  lemma ConfirmedOneMore(db: Db, rows: seq<TaskId>, k: nat, confirmed: set<TaskId>)
    requires k < |rows| && rows[k] !in rows[..k] && forall i :: i in rows ==> i in db.tasks
    ensures |Confirmed(db, rows[..k + 1], confirmed)| == |Confirmed(db, rows[..k], confirmed)| +
              if rows[k] in confirmed && db.tasks[rows[k]].status.Blocked? then 1 else 0
  {
    assert rows[..k + 1] == rows[..k] + [rows[k]];
    if rows[k] in confirmed && db.tasks[rows[k]].status.Blocked? {
      assert Confirmed(db, rows[..k + 1], confirmed) == Confirmed(db, rows[..k], confirmed) + {rows[k]};
    } else {
      assert Confirmed(db, rows[..k + 1], confirmed) == Confirmed(db, rows[..k], confirmed);
    }
  }

  /** A restore waiting for a withdrawn operation waits for its replacement instead; pairs are (job, operation). */
  function Repointed(waits: set<(nat, OpId)>, restores: set<nat>, affected: set<OpId>, op: OpId): set<(nat, OpId)> {
    set x | x in waits :: if x.0 in restores && x.1 in affected then (x.0, op) else x
  }

  /** Foreign key: every task's operation is on record. */
  ghost predicate KnownOps(db: Db) { forall i :: i in db.tasks ==> db.tasks[i].op in db.ops }

  lemma NewOpUnaffected(db: Db, ids: set<TaskId>, op: OpId)
    requires KnownOps(db) && op !in db.ops
    ensures op !in OpsOf(db, ids)
  {
  }

  /** No restore loses its last dependency, and none keeps waiting for a withdrawn operation. */
  lemma RestoresKeepWaiting(waits: set<(nat, OpId)>, restores: set<nat>, affected: set<OpId>, op: OpId, job: nat)
    requires op !in affected
    ensures (exists o :: (job, o) in waits) <==> (exists o :: (job, o) in Repointed(waits, restores, affected, op))
    ensures job in restores ==> forall o :: o in affected ==> (job, o) !in Repointed(waits, restores, affected, op)
    ensures job !in restores ==> forall o :: (job, o) in waits <==> (job, o) in Repointed(waits, restores, affected, op)
  {
    if o :| (job, o) in waits {
      var x := if job in restores && o in affected then (job, op) else (job, o);
      assert x in Repointed(waits, restores, affected, op);
    }
  }

  lemma RepointOne(waits: set<(nat, OpId)>, restores: set<nat>, done: set<OpId>, o: OpId, op: OpId)
    requires o != op
    ensures Repointed(Repointed(waits, restores, done, op), restores, {o}, op) == Repointed(waits, restores, done + {o}, op)
  {
    var a, b := Repointed(Repointed(waits, restores, done, op), restores, {o}, op), Repointed(waits, restores, done + {o}, op);
    forall x | x in waits
      ensures (if x.0 in restores && x.1 in done + {o} then (x.0, op) else x) in a
    {
      var y := if x.0 in restores && x.1 in done then (x.0, op) else x;
      assert y in Repointed(waits, restores, done, op);
    }
    assert forall x :: x in b ==> x in a;
  }

  lemma RepointParents(waits: set<(nat, OpId)>, restores: set<nat>, o: OpId, op: OpId)
    requires o != op
    ensures var parents := set x | x in waits && x.1 == o && x.0 in restores :: x.0;
      waits + (set job | job in parents :: (job, op)) - (set job | job in parents :: (job, o)) == Repointed(waits, restores, {o}, op)
  {
    var parents := set x | x in waits && x.1 == o && x.0 in restores :: x.0;
    var now := Repointed(waits, restores, {o}, op);
    forall job | job in parents
      ensures (job, op) in now && (job, o) !in now
    {
      assert (job, o) in waits;
    }
    assert forall x :: x in waits && !(x.0 in restores && x.1 == o) ==> x in now;
  }

  lemma RepointNone(waits: set<(nat, OpId)>, restores: set<nat>, op: OpId)
    ensures Repointed(waits, restores, {}, op) == waits
  {
  }

  /** Reconciling the listed rows one by one; `confirmed` are those the journal reports as done. */
  ghost function ReconcileAll(db: Db, rows: seq<TaskId>, confirmed: set<TaskId>): Db
    requires forall i :: i in rows ==> i in db.tasks
    ensures ReconcileAll(db, rows, confirmed).tasks.Keys == db.tasks.Keys
  {
    if rows == [] then db
    else
      var before := ReconcileAll(db, rows[..|rows| - 1], confirmed);
      if rows[|rows| - 1] in confirmed then ReconcileTx(before, rows[|rows| - 1]) else before
  }

  /** The tables just before a delete command records its operation. */
  ghost predicate Marks(db: Db, d: DeviceId, m: Db) {
    forall w, dirty :: DeleteDeviceRule(System(db, w, dirty), d, System(m, w, dirty))
  }

  ghost predicate RotatesAwg(db: Db, d: DeviceId, slot: DeviceId, name: Name, m: Db) {
    forall w, dirty :: RotateAwgRule(System(db, w, dirty), d, slot, name, System(m, w, dirty))
  }

  lemma RotatesAwgColumns(db: Db, d: DeviceId, slot: DeviceId, name: Name)
    requires d in db.devices && db.devices[d].profile in db.profiles && db.devices[d].status.Active?
    requires FreshSlot(db, slot) && FreshName(db, Awg, name)
    ensures var row, p := db.devices[d], db.devices[d].profile;
      RotatesAwg(db, d, slot, name,
                 db.(devices := db.devices[d := row.(awg := name, revision := row.revision + 1)],
                     peers := db.peers[slot := OldPeer(p, row.awg)],
                     profiles := db.profiles[p := db.profiles[p].(revision := db.profiles[p].revision + 1)]))
  {
  }

  function ActiveOf(db: Db, p: ProfileId): set<DeviceId> {
    set d | d in db.devices && db.devices[d].profile == p && db.devices[d].status.Active?
  }

  /** Which refusal a command on an existing device gets. */
  function CheckedDevice(db: Db, p: ProfileId, d: DeviceId, revision: nat): CommandCheck {
    if p in db.profiles && p in db.deletions then ProfileDeleting
    else if p !in db.profiles || d !in db.devices || db.devices[d].profile != p then NoSuchDevice
    else if !db.devices[d].status.Active? then DeviceInactive
    else if db.devices[d].revision != revision then RevisionConflict else Ready
  }

  /** The operation a device command records: a row for every target the profile has or had. */
  ghost predicate Asked(m: Db, p: ProfileId, op: OpId, created: nat, made: map<TaskId, Task>) {
    p in m.profiles && MadeRows(m, p, op, created, Targets(m, p), made) && Covers(m, p, Targets(m, p), made) &&
    made.Keys !! m.tasks.Keys
  }

  class Controller {
    var tasks: map<TaskId, Task>
    var ops: map<OpId, Op>
    var profiles: map<ProfileId, Profile>
    var devices: map<DeviceId, Device>
    var peers: map<DeviceId, OldPeer>
    var nodes: map<NodeKey, Node>
    var retirements: map<NodeKey, Mode>
    var cleanups: set<NodeKey>
    var drains: set<NodeKey>
    var settings: map<nat, Setting>
    var jobs: set<NodeKey>
    var grants: map<ProfileId, set<(NodeKey, Protocol)>>
    var deletions: map<ProfileId, Option<OpId>>
    var accounts: map<AccountId, Account>
    var repairs: map<TaskId, OpId>         // the operation each repaired task was replaced by
    var waits: set<(nat, OpId)>            // restore jobs and the operations they wait for
    var restores: set<nat>                 // restore jobs that are blocked and revoking

    constructor (db: Db)
      ensures View() == db && repairs == map[] && waits == {} && restores == {}
    {
      tasks, ops, profiles, devices, peers, nodes := db.tasks, db.ops, db.profiles, db.devices, db.peers, db.nodes;
      retirements, cleanups, drains, settings, jobs := db.retirements, db.cleanups, db.drains, db.settings, db.jobs;
      grants, deletions, accounts, repairs, waits, restores := db.grants, db.deletions, db.accounts, map[], {}, {};
    }

    function View(): Db
      reads this
    {
      Db(tasks, ops, profiles, devices, peers, nodes, retirements, cleanups, drains, settings, jobs, grants, deletions, accounts)
    }

    /** The last of a set of rows in (revision, created, id) order. */
    method LastRow(ids: set<TaskId>) returns (m: TaskId)
      requires ids <= tasks.Keys && ids != {}
      ensures m in ids && forall j :: j in ids && j != m ==> After(tasks, m, j)
    {
      m :| m in ids;
      var rest := ids - {m};
      while rest != {}
        invariant rest <= ids && m in ids && m !in rest
        invariant forall j :: j in ids && j != m && j !in rest ==> After(tasks, m, j)
        decreases rest
      {
        var j :| j in rest;
        if After(tasks, j, m) { m := j; }
        rest := rest - {j};
      }
    }

    /** SELECT the slot's rows ORDER BY revision, created, id, all descending. */
    method RowsOf(p: ProfileId, slot: DeviceId) returns (rows: seq<TaskId>)
      ensures Listing(tasks, p, slot, rows)
    {
      var rest := set i | i in tasks && tasks[i].profile == p && tasks[i].slot == slot;
      rows := [];
      while rest != {}
        invariant forall i :: InSlot(tasks, p, slot, i) <==> i in rows || i in rest
        invariant forall i, j :: 0 <= i < |rows| && j in rest ==> After(tasks, rows[i], j)
        invariant forall i, j :: 0 <= i < j < |rows| ==> After(tasks, rows[i], rows[j])
        decreases rest
      {
        var m := LastRow(rest);
        rows := rows + [m];
        rest := rest - {m};
      }
    }

    /** The loop both settle queries share: the first listed row per node, and whether any row is undecided. */
    method Scan(rows: seq<TaskId>) returns (latest: map<NodeKey, TaskId>, uncertain: bool)
      requires forall i :: i in rows ==> i in tasks
      ensures latest == PerNode(tasks, rows, |rows|)
      ensures uncertain <==> exists k :: 0 <= k < |rows| && Undecided(View(), rows[k])
    {
      latest, uncertain := map[], false;
      for i := 0 to |rows|
        invariant latest == PerNode(tasks, rows, i)
        invariant uncertain <==> exists k :: 0 <= k < i && Undecided(View(), rows[k])
      {
        var t := tasks[rows[i]];
        if t.node !in latest { latest := latest[t.node := rows[i]]; }
        if !(t.node in retirements && retirements[t.node].Verified?) &&
           (t.status.Awaiting? || t.status.Running? || t.status.Blocked?)
        {
          uncertain := true;
        }
      }
    }

    method Verdict(p: ProfileId, slot: DeviceId) returns (uncertain: bool, removed: bool)
      ensures uncertain == !NothingUncertain(View(), p, slot)
      ensures removed == NewestRemoved(View(), p, slot)
    {
      var rows := RowsOf(p, slot);
      var latest;
      latest, uncertain := Scan(rows);
      LatestIsNewest(tasks, p, slot, rows, latest);
      removed := forall n :: n in latest ==>
        (n in retirements && retirements[n].Verified?) ||
        (tasks[latest[n]].action.Delete? && tasks[latest[n]].status.Succeeded?);
      ScanDecides(View(), p, slot, rows);
    }

    /** The first part of settle_deletions; devices are handled one by one, in any order. */
    method RetireConfirmed(ghost ok: set<DeviceId>)
      requires ok == ConfirmedSet(View())
      modifies this`devices
      ensures View() == RetiredAll(old(View()), ok)
    {
      var todo := set d | d in devices && devices[d].status.Deleting?;
      ConfirmedAreDeleting(View(), todo);
      RetireEach(todo, View(), ok);
    }

    method RetireEach(all: set<DeviceId>, ghost was: Db, ghost ok: set<DeviceId>)
      requires View() == was && ok == ConfirmedSet(was) && ok <= all
      requires forall d :: d in all ==> d in was.devices && was.devices[d].status.Deleting?
      modifies this`devices
      ensures devices == RetiredAll(was, ok).devices
    {
      var todo := all;
      RetiredNone(was, ok, todo);
      while todo != {}
        invariant todo <= all && devices == RetiredBut(was, ok, todo).devices
        decreases todo
      {
        var d :| d in todo;
        RetireOne(was, ok, todo, d);
        SettleDevice(d, was, ok);
        todo := todo - {d};
      }
    }

    method SettleDevice(d: DeviceId, ghost was: Db, ghost ok: set<DeviceId>)
      requires d in devices && d in was.devices && devices[d] == was.devices[d] && devices[d].status.Deleting?
      requires tasks == was.tasks && retirements == was.retirements && ok == ConfirmedSet(was)
      modifies this`devices
      ensures devices == if d in ok then old(devices)[d := old(devices)[d].(status := Retired)] else old(devices)
    {
      var uncertain, removed := Verdict(devices[d].profile, d);
      VerdictFrame(was, View(), devices[d].profile, d);
      if !uncertain && removed { devices := devices[d := devices[d].(status := Retired)]; }
    }

    /** settle_deletions. */
    method SettleDeletions()
      modifies this`devices, this`peers
      ensures View() == SettlePeers(SettleDevices(old(View())))
    {
      SettleIsRetire(View());
      RetireConfirmed(ConfirmedSet(View()));
      SettleRetiredPeers();
    }

    /** settle_retired_peers. */
    method SettleRetiredPeers()
      modifies this`peers
      ensures View() == SettlePeers(old(View()))
    {
      ghost var was := View();
      var todo := peers.Keys;
      ForgottenNone(was);
      while todo != {}
        invariant todo <= was.peers.Keys && View() == ForgottenBut(was, todo)
        decreases todo
      {
        var s :| s in todo;
        var _, removed := Verdict(peers[s].profile, s);
        VerdictFrame(was, View(), peers[s].profile, s);
        ForgetOne(was, todo, s);
        if removed { peers := peers - {s}; }
        todo := todo - {s};
      }
    }

    /** account_deletions.settle: the releasable accounts are selected first, then released one by one. */
    method SettleAccountDeletions()
      modifies this`accounts, this`devices
      ensures View() == SettleAccounts(old(View()))
    {
      ghost var was := View();
      var ready := set a | a in accounts && accounts[a].deletion.Pending? &&
        forall p :: p in profiles ==> Owns(View(), a, p) ==> Revoked(View(), p);
      ReadyIsReleasable(was, ready);
      ReleaseEach(ready);
    }

    method ReleaseEach(ready: set<AccountId>)
      requires ready <= accounts.Keys
      modifies this`accounts, this`devices
      ensures View() == ReleasedAll(old(View()), ready)
    {
      ghost var was, released := View(), {};
      var todo := ready;
      NobodyReleased(was);
      while todo != {}
        invariant todo !! released && todo + released == ready && View() == ReleasedAll(was, released)
        decreases todo
      {
        var a :| a in todo;
        ReleaseNext(a, was, released);
        released, todo := released + {a}, todo - {a};
      }
      assert released == ready;
    }

    method ReleaseNext(a: AccountId, ghost was: Db, ghost released: set<AccountId>)
      requires a in was.accounts && a !in released && released <= was.accounts.Keys && View() == ReleasedAll(was, released)
      modifies this`accounts, this`devices
      ensures View() == ReleasedAll(was, released + {a})
    {
      ReleaseOne(was, released, a);
      ReleaseAccount(a);
    }

    method ReleaseAccount(a: AccountId)
      requires a in accounts
      modifies this`accounts, this`devices
      ensures View() == Release(old(View()), a)
    {
      accounts := accounts[a := Account(accounts[a].revision + 1, {}, {}, Completed)];
      devices := map d | d in devices ::
        if devices[d].profile in profiles && profiles[devices[d].profile].owner == Some(a)
        then devices[d].(status := Retired) else devices[d];
    }

    /** refresh_operation. */
    method RefreshOperation(op: OpId)
      modifies this`ops, this`devices, this`peers, this`accounts
      ensures View() == Refresh(old(View()), op)
    {
      ghost var was := View();
      var states := set i | i in tasks && tasks[i].op == op :: tasks[i].status;
      assert forall st :: st in states <==> Has(was, op, st);
      var status := if Blocked in states then OpBlocked else if Running in states then OpRunning
        else if Awaiting in states then OpAwaiting else if Superseded in states then OpSuperseded else OpSucceeded;
      if op in ops { ops := ops[op := ops[op].(status := status)]; }
      assert View() == RefreshStatus(was, op);
      SettleDeletions();
      SettleAccountDeletions();
    }

    /** recover. */
    method Recover()
      modifies this`tasks, this`ops
      ensures View() == RecoverAll(old(View()))
    {
      tasks := map i | i in tasks :: if tasks[i].status.Running? then tasks[i].(status := Blocked) else tasks[i];
      ops := map o | o in ops :: if ops[o].status.OpRunning? then ops[o].(status := OpBlocked) else ops[o];
    }

    method Mark(ids: set<TaskId>, st: Status)
      modifies this`tasks
      ensures View() == SetTasks(old(View()), ids, st)
    {
      tasks := map i | i in tasks :: if i in ids then tasks[i].(status := st) else tasks[i];
    }

    /** The dispatch query: the first eligible row in (operation creation, operation, task) order. */
    method NextRow() returns (found: Option<TaskId>)
      ensures found.None? ==> forall i :: !Eligible(View(), i)
      ensures found.Some? ==> FirstEligible(View(), found.value)
      ensures found.None? <==> forall i :: !Clear(View(), i)
      ensures found.Some? ==> Clear(View(), found.value)
    {
      EligibleRowsAreClear(View());
      var all := set i | i in tasks && Eligible(View(), i);
      found := None;
      var rest := all;
      while rest != {}
        invariant rest <= all && (found.None? ==> rest == all)
        invariant found.Some? ==> found.value in all && forall j :: j in all && j !in rest && j != found.value ==> Before(tasks, found.value, j)
        decreases rest
      {
        var j :| j in rest;
        if found.None? || Before(tasks, j, found.value) { found := Some(j); }
        rest := rest - {j};
      }
      assert forall i :: Eligible(View(), i) ==> i in all;
    }

    /** run_one, first transaction. */
    method ClaimNext(upgrading: bool) returns (r: ClaimResult)
      modifies this`tasks, this`ops, this`devices, this`peers, this`accounts
      ensures r.Idle? <==> upgrading || forall i :: !Eligible(old(View()), i)
      ensures r.Idle? ==> View() == old(View())
      ensures r.Claimed? ==> FirstEligible(old(View()), r.id) && !Refused(old(View()), old(tasks)[r.id]) &&
                             View() == ClaimTask(old(View()), r.id)
      ensures r.Withdrawn? ==> FirstEligible(old(View()), r.id) && Refused(old(View()), old(tasks)[r.id]) &&
                               View() == RefuseTx(old(View()), r.id)
      ensures r.Idle? <==> upgrading || forall i :: !Clear(old(View()), i)
      ensures !r.Idle? ==> Clear(old(View()), r.id)
      ensures !r.Idle? ==> (r.Withdrawn? <==> old(tasks)[r.id].action == Ensure && !InService(old(View()), old(tasks)[r.id]))
      ensures !r.Idle? ==> tasks == old(tasks)[r.id := old(tasks)[r.id].(status := if r.Claimed? then Running else Superseded)]
      ensures r.Claimed? && old(tasks)[r.id].op in old(ops) ==> ops[old(tasks)[r.id].op].status == OpRunning
    {
      EligibleRowsAreClear(View());
      if upgrading { return Idle; }
      var found := NextRow();
      assert View() == old(View());
      if found.None? { return Idle; }
      var id, t := found.value, tasks[found.value];
      OneStatus(View(), id, Running);
      OneStatus(View(), id, Superseded);
      if Refused(View(), t) {
        MarkedRows(View(), {id}, Superseded, t.op);
        Mark({id}, Superseded);
        RefreshOperation(t.op);
        return Withdrawn(id);
      }
      Mark({id}, Running);
      if t.op in ops { ops := ops[t.op := ops[t.op].(status := OpRunning)]; }
      return Claimed(id);
    }

    /** run_one, last transaction. */
    method Finish(id: TaskId, ok: bool)
      requires id in tasks
      modifies this`tasks, this`ops, this`devices, this`peers, this`accounts
      ensures View() == FinishTx(old(View()), id, ok)
      ensures tasks == if old(tasks)[id].status == Running
        then old(tasks)[id := old(tasks)[id].(status := if ok then Succeeded else Blocked)] else old(tasks)
    {
      ResultExactly(View(), id, ok);
      var op := tasks[id].op;
      Mark(if tasks[id].status.Running? then {id} else {}, if ok then Succeeded else Blocked);
      RefreshOperation(op);
    }

    /** reconcile_completed over the blocked rows listed when it started. */
    method ReconcileCompleted(rows: seq<TaskId>, confirmed: set<TaskId>) returns (recovered: nat)
      requires (forall i :: i in rows ==> i in tasks) && forall i, j :: 0 <= i < j < |rows| ==> rows[i] != rows[j]
      modifies this`tasks, this`ops, this`devices, this`peers, this`accounts
      ensures View() == ReconcileAll(old(View()), rows, confirmed)
      ensures recovered == |Confirmed(old(View()), rows, confirmed)|
    {
      ghost var was := View();
      recovered := 0;
      for k := 0 to |rows|
        invariant View() == ReconcileAll(was, rows[..k], confirmed) && recovered == |Confirmed(was, rows[..k], confirmed)|
        invariant tasks.Keys == was.tasks.Keys && forall i :: i in tasks && i !in rows[..k] ==> tasks[i] == was.tasks[i]
      {
        assert rows[..k + 1][..k] == rows[..k];
        assert rows[k] !in rows[..k];
        ConfirmedOneMore(was, rows, k, confirmed);
        if rows[k] in confirmed {
          var changed := ReconcileRow(rows[k]);
          if changed { recovered := recovered + 1; }
        }
      }
      assert rows[..|rows|] == rows;
    }

    /** The transaction for one row the journal confirms. */
    method ReconcileRow(id: TaskId) returns (changed: bool)
      requires id in tasks
      modifies this`tasks, this`ops, this`devices, this`peers, this`accounts
      ensures View() == ReconcileTx(old(View()), id) && (changed <==> old(tasks)[id].status.Blocked?)
      ensures tasks.Keys == old(tasks).Keys && forall i :: i in tasks && i != id ==> tasks[i] == old(tasks)[i]
    {
      changed := tasks[id].status.Blocked?;
      if changed {
        var op := tasks[id].op;
        Mark({id}, Succeeded);
        RefreshOperation(op);
      }
    }

    /** The rows record() inserts, numbered from `first`. */
    method MakeRows(p: ProfileId, op: OpId, created: nat, targets: set<(NodeKey, Protocol)>, first: TaskId)
      returns (made: map<TaskId, Task>)
      requires p in profiles
      ensures MadeRows(View(), p, op, created, targets, made) && Covers(View(), p, targets, made)
      ensures forall i :: i in made ==> first <= i
    {
      var db := View();
      var wanted := Wanted(db, p, targets);
      var next, rest := first, wanted;
      ghost var place: map<(NodeKey, Protocol, DeviceId), TaskId> := map[];
      made := map[];
      while rest != {}
        invariant rest <= wanted && forall i :: i in made ==> first <= i < next
        invariant first <= next
        invariant forall i :: i in made ==> MadeRow(db, p, op, created, targets, made[i])
        invariant forall i, w :: i in made && w in rest ==> !IsFor(made[i], w)
        invariant forall i, j :: i in made && j in made && i != j ==> !SameTarget(made[i], made[j])
        invariant forall w :: w in wanted && w !in rest ==> w in place && place[w] in made && IsFor(made[place[w]], w)
        decreases rest
      {
        var w :| w in rest;
        var row := NewRow(db, p, op, created, w);
        assert IsFor(row, w);
        made := made[next := row];
        place := place[w := next];
        next, rest := next + 1, rest - {w};
      }
      forall n, protocol, slot | (n, protocol) in targets && Actionable(db, n) && slot in Peers(db, p, protocol)
        ensures exists i :: i in made && made[i].node == n && made[i].protocol == protocol && made[i].slot == slot
      {
        assert (n, protocol, slot) in wanted && IsFor(made[place[(n, protocol, slot)]], (n, protocol, slot));
      }
    }

    /** OperationRepository.record; `first` and the ids after it are unused. */
    method RecordOperation(p: ProfileId, op: OpId, created: nat, previous: set<(NodeKey, Protocol)>,
                           scoped: Option<set<(NodeKey, Protocol)>>, first: TaskId)
      returns (made: map<TaskId, Task>, ghost targets: set<(NodeKey, Protocol)>)
      requires p in profiles && forall i :: i in tasks ==> i < first
      modifies this`tasks, this`ops
      ensures var all := previous + if p in grants then grants[p] else {};
        targets == if scoped.Some? then all * scoped.value else all
      ensures MadeRows(old(View()), p, op, created, targets, made) && Covers(old(View()), p, targets, made)
      ensures made.Keys !! old(tasks).Keys && View() == Record(old(View()), p, op, made)
    {
      var chosen := previous + if p in grants then grants[p] else {};
      if scoped.Some? { chosen := chosen * scoped.value; }
      targets := chosen;
      made := MakeRows(p, op, created, chosen, first);
      tasks := tasks + made;
      ops := ops[op := Op(p, profiles[p].revision, if made == map[] then NoTargets else OpAwaiting)];
    }

    method RefreshEach(affected: set<OpId>) returns (ghost order: seq<OpId>)
      modifies this`ops, this`devices, this`peers, this`accounts
      ensures Lists(order, affected) && View() == RefreshAll(old(View()), order)
    {
      ghost var was := View();
      order := [];
      var rest := affected;
      while rest != {}
        invariant rest <= affected && Lists(order, affected - rest) && View() == RefreshAll(was, order)
        decreases rest
      {
        var o :| o in rest;
        RefreshOperation(o);
        assert (order + [o])[..|order|] == order;
        order, rest := order + [o], rest - {o};
      }
    }

    method Raise(p: ProfileId)
      modifies this`profiles
      ensures View() == Bump(old(View()), p)
    {
      if p in profiles { profiles := profiles[p := profiles[p].(revision := profiles[p].revision + 1)]; }
    }

    /** The profile's queued and blocked work on the row's node is withdrawn, at a new profile revision. */
    method ClearNode(id: TaskId) returns (ghost order: seq<OpId>)
      requires id in tasks
      modifies this`tasks, this`ops, this`devices, this`peers, this`accounts, this`profiles
      ensures Lists(order, OpsOf(old(View()), RepairSet(old(View()), id))) && View() == Cleared(old(View()), id, order)
    {
      var p, ids := tasks[id].profile, RepairSet(View(), id);
      var affected := OpsOf(View(), ids);
      Mark(ids, Superseded);
      order := RefreshEach(affected);
      Raise(p);
    }

    /** A new operation for everything the profile has; its deletion, if there is one, now waits for it. */
    method Replace(p: ProfileId, op: OpId, created: nat, first: TaskId) returns (made: map<TaskId, Task>)
      requires p in profiles && forall i :: i in tasks ==> i < first
      modifies this`tasks, this`ops, this`devices, this`accounts, this`deletions
      ensures MadeRows(old(View()), p, op, created, Targets(old(View()), p), made)
      ensures Covers(old(View()), p, Targets(old(View()), p), made)
      ensures made.Keys !! old(tasks).Keys && View() == ReplaceOperation(old(View()), p, op, made)
    {
      ghost var targets;
      made, targets := RecordOperation(p, op, created, Targets(View(), p), None, first);
      assert targets == Targets(old(View()), p);
      if p in deletions { deletions := deletions[p := Some(op)]; }
      SettleAccountDeletions();
    }

    /** The restores that wait for one withdrawn operation. */
    method RepointFrom(o: OpId, op: OpId)
      requires o != op
      modifies this`waits
      ensures waits == Repointed(old(waits), restores, {o}, op)
    {
      RepointParents(waits, restores, o, op);
      var parents := set x | x in waits && x.1 == o && x.0 in restores :: x.0;
      waits := waits + (set job | job in parents :: (job, op)) - (set job | job in parents :: (job, o));
    }

    method Repoint(affected: set<OpId>, op: OpId)
      requires op !in affected
      modifies this`waits
      ensures waits == Repointed(old(waits), restores, affected, op)
    {
      ghost var was, done := waits, {};
      var rest := affected;
      RepointNone(was, restores, op);
      while rest != {}
        invariant rest !! done && rest + done == affected && waits == Repointed(was, restores, done, op)
        decreases rest
      {
        var o :| o in rest;
        RepointOne(was, restores, done, o, op);
        RepointFrom(o, op);
        rest, done := rest - {o}, done + {o};
      }
      assert done == affected;
    }

    /** The rows of a repair. */
    method RepairRows(id: TaskId, op: OpId, created: nat, first: TaskId) returns (ghost order: seq<OpId>, ghost made: map<TaskId, Task>)
      requires id in tasks && tasks[id].profile in profiles && op !in ops && forall i :: i in tasks ==> i < first
      modifies this`tasks, this`ops, this`devices, this`peers, this`accounts, this`profiles, this`deletions
      ensures Repaired(old(View()), id, order, op, created, made, View())
    {
      var p := tasks[id].profile;
      order := ClearNode(id);
      ClearedKeeps(old(View()), id, order);
      made := Replace(p, op, created, first);
    }

    /** resolve_blocked after the agent retired the command. */
    method ApplyRepair(id: TaskId, op: OpId, created: nat, first: TaskId)
      returns (done: bool, ghost order: seq<OpId>, ghost made: map<TaskId, Task>)
      requires id in tasks ==> tasks[id].profile in profiles
      requires op !in ops && (forall i :: i in tasks ==> i < first) && KnownOps(View())
      modifies this
      ensures restores == old(restores) && (done <==> id in old(tasks) && old(tasks)[id].status.Blocked?)
      ensures !done ==> View() == old(View()) && repairs == old(repairs) && waits == old(waits)
      ensures done ==> repairs == old(repairs)[id := op] && Repaired(old(View()), id, order, op, created, made, View())
      ensures done ==> waits == Repointed(old(waits), restores, OpsOf(old(View()), RepairSet(old(View()), id)), op)
    {
      order, made := [], map[];
      done := id in tasks && tasks[id].status.Blocked?;
      if done { order, made := ReplaceBlocked(id, op, created, first); }
    }

    method ReplaceBlocked(id: TaskId, op: OpId, created: nat, first: TaskId) returns (ghost order: seq<OpId>, ghost made: map<TaskId, Task>)
      requires id in tasks && tasks[id].profile in profiles
      requires op !in ops && (forall i :: i in tasks ==> i < first) && KnownOps(View())
      modifies this
      ensures restores == old(restores) && repairs == old(repairs)[id := op]
      ensures Repaired(old(View()), id, order, op, created, made, View())
      ensures waits == Repointed(old(waits), restores, OpsOf(old(View()), RepairSet(old(View()), id)), op)
    {
      var affected := OpsOf(View(), RepairSet(View(), id));
      NewOpUnaffected(View(), RepairSet(View(), id), op);
      order, made := RepairRows(id, op, created, first);
      StoreRepair(id, affected, op);
    }

    method StoreRepair(id: TaskId, affected: set<OpId>, op: OpId)
      requires op !in affected
      modifies this`waits, this`repairs
      ensures waits == Repointed(old(waits), restores, affected, op) && repairs == old(repairs)[id := op]
      ensures View() == old(View())
    {
      Repoint(affected, op);
      repairs := repairs[id := op];
    }

    /** resolve_blocked as its callers see it. retired says whether the agent answered. What a repair answered once is
        what every later call for that row answers, without touching anything. */
    method ResolveBlocked(id: TaskId, retired: bool, op: OpId, created: nat, first: TaskId) returns (r: RepairResult)
      requires id in tasks ==> tasks[id].profile in profiles
      requires op !in ops && (forall i :: i in tasks ==> i < first) && KnownOps(View())
      modifies this
      ensures r.Answered? ==> id in repairs && repairs[id] == r.op
      ensures id in old(tasks) && id in old(repairs) ==> r == Answered(old(repairs)[id])
      ensures id in old(repairs) || !r.Answered? ==> View() == old(View()) && repairs == old(repairs) && waits == old(waits)
      ensures forall k :: k in old(repairs) ==> k in repairs && repairs[k] == old(repairs)[k]
      ensures r.NotFound? <==> id !in old(tasks)
      ensures r.NotBlocked? <==> id in old(tasks) && id !in old(repairs) && !old(tasks)[id].status.Blocked?
      ensures r.Answered? && id !in old(repairs) ==>
        exists order, made :: Repaired(old(View()), id, order, op, created, made, View()) && r.op == op
    {
      if id !in tasks { return NotFound; }
      if id in repairs { return Answered(repairs[id]); }
      if !tasks[id].status.Blocked? { return NotBlocked; }
      if !retired { return AgentFailed; }
      ghost var was := View();
      var done;
      ghost var order, made;
      done, order, made := ApplyRepair(id, op, created, first);
      assert Repaired(was, id, order, op, created, made, View());
      return Answered(op);
    }

    /** The end of a device command: its operation is recorded and deletions are settled. */
    method Enqueue(p: ProfileId, op: OpId, created: nat, first: TaskId) returns (made: map<TaskId, Task>)
      requires p in profiles && forall i :: i in tasks ==> i < first
      modifies this`tasks, this`ops, this`devices, this`peers
      ensures MadeRows(old(View()), p, op, created, Targets(old(View()), p), made)
      ensures Covers(old(View()), p, Targets(old(View()), p), made)
      ensures made.Keys !! old(tasks).Keys && View() == Enqueued(old(View()), p, op, made)
    {
      ghost var targets;
      made, targets := RecordOperation(p, op, created, Targets(View(), p), None, first);
      assert targets == Targets(old(View()), p);
      SettleDeletions();
    }

    /** What a command on an existing device checks, in this order. */
    method CheckDevice(p: ProfileId, d: DeviceId, revision: nat) returns (r: CommandCheck)
      ensures r == CheckedDevice(View(), p, d, revision)
      ensures r.ProfileDeleting? <==> p in profiles && p in deletions
      ensures r.NoSuchDevice? <==> p !in profiles || (p !in deletions && (d !in devices || devices[d].profile != p))
      ensures r.DeviceInactive? <==> p in profiles && p !in deletions && d in devices && devices[d].profile == p &&
                                     devices[d].status != Active
      ensures r.Ready? <==> p in profiles && p !in deletions && d in devices && devices[d].profile == p &&
                            devices[d].status.Active? && devices[d].revision == revision
    {
      if p !in profiles { return NoSuchDevice; }
      if p in deletions { return ProfileDeleting; }
      if d !in devices || devices[d].profile != p { return NoSuchDevice; }
      if !devices[d].status.Active? { return DeviceInactive; }
      return if devices[d].revision == revision then Ready else RevisionConflict;
    }

    /** The create command: a new device with names of its own, within the profile's limit, and its operation. */
    method CreateDevice(p: ProfileId, revision: nat, limit: Option<nat>, d: DeviceId, awg: Name, xray: Name, uuid: nat,
                        op: OpId, created: nat, first: TaskId)
      returns (r: CommandCheck, ghost m: Db, ghost made: map<TaskId, Task>)
      requires (forall i :: i in tasks ==> i < first) && FreshSlot(View(), d)
      requires FreshName(View(), Awg, awg) && FreshName(View(), Xray, xray)
      modifies this`tasks, this`ops, this`devices, this`peers, this`profiles
      ensures r.Ready? <==> p in old(profiles) && p !in old(deletions) && old(profiles)[p].usable && old(profiles)[p].revision == revision &&
                            (limit.Some? ==> |ActiveOf(old(View()), p)| < limit.value)
      ensures !r.Ready? ==> View() == old(View())
      ensures r.Ready? ==> m == Bump(WithDevice(old(View()), d, Device(p, awg, xray, Active, 1, uuid)), p)
      ensures r.Ready? && limit.Some? ==> |ActiveOf(m, p)| <= limit.value
      ensures r.Ready? ==> Asked(m, p, op, created, made) && View() == Enqueued(m, p, op, made)
    {
      m, made := View(), map[];
      if p !in profiles { return NoSuchDevice, m, made; }
      if p in deletions { return ProfileDeleting, m, made; }
      if !profiles[p].usable { return Unusable, m, made; }
      if limit.Some? && |ActiveOf(View(), p)| >= limit.value { return LimitReached, m, made; }
      if profiles[p].revision != revision { return RevisionConflict, m, made; }
      ghost var was := View();
      devices := devices[d := Device(p, awg, xray, Active, 1, uuid)];
      Raise(p);
      m := View();
      assert ActiveOf(m, p) == ActiveOf(was, p) + {d};
      made := Enqueue(p, op, created, first);
      r := Ready;
    }

    /** The delete command: the device is on its way out and its removal is queued at a new revision. */
    method RemoveDevice(p: ProfileId, d: DeviceId, revision: nat, op: OpId, created: nat, first: TaskId)
      returns (r: CommandCheck, ghost m: Db, ghost made: map<TaskId, Task>)
      requires forall i :: i in tasks ==> i < first
      modifies this`tasks, this`ops, this`devices, this`peers, this`profiles
      ensures !r.Ready? ==> View() == old(View())
      ensures r.Ready? ==> d in old(devices) && m.devices == old(devices)[d := old(devices)[d].(status := Deleting, revision := revision + 1)]
      ensures r.Ready? ==> p in old(profiles) && m.profiles == old(profiles)[p := old(profiles)[p].(revision := old(profiles)[p].revision + 1)]
      ensures r.Ready? ==> m.tasks == old(tasks) && m.peers == old(peers)
      ensures r.Ready? ==> Marks(old(View()), d, m) && d in old(devices) && p == old(devices)[d].profile && old(devices)[d].revision == revision
      ensures r.Ready? ==> Asked(m, p, op, created, made) && View() == Enqueued(m, p, op, made)
    {
      m, made := View(), map[];
      r := CheckDevice(p, d, revision);
      if !r.Ready? { return; }
      devices := devices[d := devices[d].(status := Deleting, revision := devices[d].revision + 1)];
      Raise(p);
      m := View();
      made := Enqueue(p, op, created, first);
    }

    /** rotate_awg and the two revisions. */
    method NewAwgName(p: ProfileId, d: DeviceId, slot: DeviceId, name: Name)
      requires p in profiles && d in devices && devices[d].profile == p && devices[d].status.Active?
      requires FreshSlot(View(), slot) && FreshName(View(), Awg, name)
      modifies this`devices, this`peers, this`profiles
      ensures RotatesAwg(old(View()), d, slot, name, View())
      ensures devices == old(devices)[d := old(devices)[d].(awg := name, revision := old(devices)[d].revision + 1)]
      ensures peers == old(peers)[slot := OldPeer(p, old(devices)[d].awg)]
      ensures profiles == old(profiles)[p := old(profiles)[p].(revision := old(profiles)[p].revision + 1)]
    {
      RotatesAwgColumns(View(), d, slot, name);
      peers := peers[slot := OldPeer(p, devices[d].awg)];
      devices := devices[d := devices[d].(awg := name, revision := devices[d].revision + 1)];
      Raise(p);
    }

    /** The AWG rotate command: the old peer keeps a slot of its own until every node has removed it. */
    method RotateAwgKey(p: ProfileId, d: DeviceId, revision: nat, slot: DeviceId, name: Name, op: OpId, created: nat, first: TaskId)
      returns (r: CommandCheck, ghost m: Db, ghost made: map<TaskId, Task>)
      requires forall i :: i in tasks ==> i < first
      requires FreshSlot(View(), slot) && FreshName(View(), Awg, name)
      modifies this`tasks, this`ops, this`devices, this`peers, this`profiles
      ensures !r.Ready? ==> View() == old(View())
      ensures r.Ready? ==> d in old(devices) && m.devices == old(devices)[d := old(devices)[d].(awg := name, revision := revision + 1)]
      ensures r.Ready? ==> m.peers == old(peers)[slot := OldPeer(p, old(devices)[d].awg)]
      ensures r.Ready? ==> p in old(profiles) && m.profiles == old(profiles)[p := old(profiles)[p].(revision := old(profiles)[p].revision + 1)]
      ensures r.Ready? ==> RotatesAwg(old(View()), d, slot, name, m) && d in old(devices) && p == old(devices)[d].profile && old(devices)[d].revision == revision
      ensures r.Ready? ==> Asked(m, p, op, created, made) && View() == Enqueued(m, p, op, made)
    {
      m, made := View(), map[];
      r := CheckDevice(p, d, revision);
      if !r.Ready? { return; }
      NewAwgName(p, d, slot, name);
      m := View();
      made := Enqueue(p, op, created, first);
    }

    method WithdrawOvertaken(t: Task) returns (ghost order: seq<OpId>)
      modifies this`tasks, this`ops, this`devices, this`peers, this`accounts
      ensures Lists(order, OldOps(old(tasks), t)) && View() == WithdrawAll(old(View()), t, order)
    {
      ghost var was := View();
      order := [];
      var olds := OldOps(tasks, t);
      var rest := olds;
      while rest != {}
        invariant rest <= olds && Lists(order, olds - rest) && View() == WithdrawAll(was, t, order)
        decreases rest
      {
        var o :| o in rest;
        Mark(Overtaken(tasks, t, o), Superseded);
        RefreshOperation(o);
        assert (order + [o])[..|order|] == order;
        order, rest := order + [o], rest - {o};
      }
    }

    /** The transaction of force_recovery.cancel that follows the agent's retirement receipt. */
    method ApplyForceCancel(id: TaskId) returns (done: bool, ghost order: seq<OpId>)
      modifies this`tasks, this`ops, this`devices, this`peers, this`accounts, this`profiles, this`settings
      ensures done <==> id in old(tasks) && old(tasks)[id].status.Blocked?
      ensures !done ==> View() == old(View())
      ensures done ==> View() == CancelTx(old(View()), id, order) &&
                       Lists(order, OldOps(SetTasks(old(View()), {id}, Superseded).tasks, old(tasks)[id]))
    {
      order := [];
      if id !in tasks || !tasks[id].status.Blocked? { return false, order; }
      var t := tasks[id];
      Mark({id}, Superseded);
      order := WithdrawOvertaken(t);
      Raise(t.profile);
      RefreshOperation(t.op);
      ReleaseWaiting(t.node, t.protocol);
      done := true;
    }

    method ReleaseWaiting(n: NodeKey, protocol: Protocol)
      modifies this`settings
      ensures View() == ReleaseSettings(old(View()), n, protocol)
    {
      ghost var was := settings;
      var waiting := set x | x in settings && settings[x].node == n && settings[x].status.Awaiting?;
      var rest := waiting;
      while rest != {}
        invariant rest <= waiting && settings.Keys == was.Keys
        invariant forall x | x in settings
          :: settings[x] == if x in waiting - rest && protocol in was[x].removes then was[x].(status := Superseded) else was[x]
        decreases rest
      {
        var x :| x in rest;
        if protocol in settings[x].removes { settings := settings[x := settings[x].(status := Superseded)]; }
        rest := rest - {x};
      }
      assert settings == ReleaseSettings(old(View()), n, protocol).settings;
    }
  }
}
