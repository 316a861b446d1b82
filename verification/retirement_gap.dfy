/** Why retirement needs one confirmed removal per node and protocol.
 *
 * settle_deletions keeps the newest row per node only. The history below is a device with both protocols on one
 * node: both peers are set up, the device is deleted, its Xray removal is blocked and cancelled by force, its AWG
 * removal succeeds and is listed first, and that retires the device while its Xray client is still on the node.
 * Every transaction is whole and every claim takes the row the dispatch query returns.
 */
module RetirementGap {
  import opened Tables
  import opened OutboxRun
  import opened OutboxInvariants
  import opened OutboxTables
  import opened OutboxTheorems
  import opened Retirement
  import opened Transactions

  const BOTH: set<(NodeKey, Protocol)> := {(1, Awg), (1, Xray)}
  const PEER := PeerKey(1, Awg, 10)
  const CLIENT := PeerKey(1, Xray, 11)

  /** Rows 1 and 2 ensure AWG and Xray at revision 2; rows 3 and 4 remove Xray and AWG at revision 3. */
  function Row(id: TaskId, st: Status): Task {
    var protocol := if id == 1 || id == 4 then Awg else Xray;
    Task(if id <= 2 then 1 else 2, 1, if id <= 2 then 2 else 3, 0, 1, protocol, 5, if protocol.Awg? then 10 else 11,
         if id <= 2 then Ensure else Delete, st, if id == 2 then 7 else 0)
  }

  function Early(a: Status, b: Status): map<TaskId, Task> { map[1 := Row(1, a), 2 := Row(2, b)] }

  function Late(c: Status, d: Status): map<TaskId, Task> {
    map[1 := Row(1, Succeeded), 2 := Row(2, Succeeded), 3 := Row(3, c), 4 := Row(4, d)]
  }

  function Ops1(x: OpStatus): map<OpId, Op> { map[1 := Op(1, 2, x)] }

  function Ops2(y: OpStatus): map<OpId, Op> { map[1 := Op(1, 2, OpSucceeded), 2 := Op(1, 3, y)] }

  function Phone(st: DeviceStatus): map<DeviceId, Device> {
    map[5 := Device(1, 10, 11, st, if st.Active? then 1 else 2, 7)]
  }

  function Base(tasks: map<TaskId, Task>, ops: map<OpId, Op>, revision: nat, devices: map<DeviceId, Device>): Db {
    Db(tasks, ops, map[1 := Profile(None, revision, true)], devices, map[], map[1 := Node(true, {Awg, Xray}, 1, 1)],
       map[], {}, {}, map[], {}, map[1 := BOTH], map[], map[])
  }

  const START := System(Base(map[], map[], 1, map[]), World({}, [], {}, {}, {}, map[]), {})

  ghost predicate EndsIn(h: History, s: System) { IsHistory(h) && h.states[|h.commits|] == s }

  /** Some history of whole transactions ends in state s. */
  ghost predicate Reached(s: System) { exists h :: EndsIn(h, s) }

  lemma Extend(h: History, s: System, t: Transaction, s': System) returns (h': History)
    requires EndsIn(h, s) && Commits(s, t, s')
    ensures h' == History(h.states + [s'], h.commits + [t]) && EndsIn(h', s')
  {
    h' := History(h.states + [s'], h.commits + [t]);
    forall i: nat | i < |h'.commits|
      ensures CommitAt(h', i)
    {
      if i < |h.commits| { assert CommitAt(h, i); }
    }
  }

  lemma Reach(s: System, t: Transaction, s': System)
    requires Reached(s) && Commits(s, t, s')
    ensures Reached(s')
  {
    var h :| EndsIn(h, s);
    var h' := Extend(h, s, t, s');
  }

  // ----- One command from claim to result -----

  /** A command is claimed, sent and carried out; its result is still to be recorded. */
  lemma CarriedOut(s: System, id: TaskId, claimed: Db, w: World)
    requires Reached(s) && s.dirty == {} && s.w.held == {} && FirstEligible(s.db, id) && !Refused(s.db, s.db.tasks[id])
    requires claimed == ClaimTask(s.db, id) && id !in s.w.dispatched && id !in s.w.applied && id !in s.w.fenced
    requires var t := s.db.tasks[id];
      w == World({}, s.w.dispatched + [id], s.w.applied + {id}, s.w.fenced,
                 if t.action.Ensure? then s.w.remote + {KeyOf(t)} else s.w.remote - {KeyOf(t)},
                 if t.action.Ensure? then s.w.carried[KeyOf(t) := t.secret] else s.w.carried)
    ensures Reached(System(claimed, w, {}))
  {
    Called(s, id, claimed);
    var sent := System(claimed, s.w.(dispatched := s.w.dispatched + [id]), {});
    assert KeyOf(claimed.tasks[id]) == KeyOf(s.db.tasks[id]);
    assert EffectRule(sent, id, System(claimed, w, {}));
    Reach(sent, Single(Effect(id)), System(claimed, w, {}));
  }

  /** A command is claimed and sent. */
  lemma Called(s: System, id: TaskId, claimed: Db)
    requires Reached(s) && s.dirty == {} && s.w.held == {} && FirstEligible(s.db, id) && !Refused(s.db, s.db.tasks[id])
    requires claimed == ClaimTask(s.db, id)
    ensures Reached(System(claimed, s.w.(dispatched := s.w.dispatched + [id]), {}))
  {
    var held := System(claimed, s.w.(held := {id}), {});
    assert s.w.held + {id} == {id};
    assert ClaimRule(s, id, held);
    Reach(s, Claiming(id), held);
    var sent := System(claimed, s.w.(dispatched := s.w.dispatched + [id]), {});
    assert {id} - {id} == {};
    assert DispatchRule(held, id, sent);
    Reach(held, Single(Dispatch(id)), sent);
  }

  /** While nothing is ready to settle, a refresh only writes the status. */
  lemma QuietRefresh(tasks: map<TaskId, Task>, ops: map<OpId, Op>, revision: nat, st: DeviceStatus, op: OpId)
    requires st.Active? || (exists i :: InSlot(tasks, 1, 5, i) && !Terminal(tasks[i].status) && tasks[i].node == 1)
    ensures var db := Base(tasks, ops, revision, Phone(st)); Refresh(db, op) == RefreshStatus(db, op)
  {
    var db := RefreshStatus(Base(tasks, ops, revision, Phone(st)), op);
    assert !st.Active? ==> !NothingUncertain(db, 1, 5);
    assert SettleDevices(db).devices == db.devices;
    NothingElse(db);
  }

  lemma NothingElse(db: Db)
    requires db.peers == map[] && db.accounts == map[]
    ensures SettleAccounts(SettlePeers(db)) == db
  {
    assert SettlePeers(db).peers == db.peers;
    assert SettleAccounts(db).accounts == db.accounts;
    assert SettleAccounts(db).devices == db.devices;
  }

  /** The states of operation 2's tasks, once rows 3 and 4 exist. */
  lemma LateStates(c: Status, d: Status, ops: map<OpId, Op>, revision: nat, dev: DeviceStatus, st: Status)
    ensures Has(Base(Late(c, d), ops, revision, Phone(dev)), 2, st) <==> c == st || d == st
  {
    var tasks := Late(c, d);
    assert tasks[3].op == 2 && tasks[3].status == c && tasks[4].op == 2 && tasks[4].status == d;
  }

  lemma EarlyStates(a: Status, b: Status, ops: map<OpId, Op>, revision: nat, dev: DeviceStatus, st: Status)
    ensures Has(Base(Early(a, b), ops, revision, Phone(dev)), 1, st) <==> a == st || b == st
  {
    var tasks := Early(a, b);
    assert tasks[1].op == 1 && tasks[1].status == a && tasks[2].op == 1 && tasks[2].status == b;
  }

  /** The aggregate of two states. */
  function Worse(a: Status, b: Status): OpStatus {
    if a.Blocked? || b.Blocked? then OpBlocked else if a.Running? || b.Running? then OpRunning
    else if a.Awaiting? || b.Awaiting? then OpAwaiting else if a.Superseded? || b.Superseded? then OpSuperseded else OpSucceeded
  }

  lemma LateAggregate(c: Status, d: Status, ops: map<OpId, Op>, revision: nat, dev: DeviceStatus)
    ensures Aggregate(Base(Late(c, d), ops, revision, Phone(dev)), 2) == Worse(c, d)
  {
    LateStates(c, d, ops, revision, dev, Blocked);
    LateStates(c, d, ops, revision, dev, Running);
    LateStates(c, d, ops, revision, dev, Awaiting);
    LateStates(c, d, ops, revision, dev, Superseded);
  }

  lemma EarlyAggregate(a: Status, b: Status, ops: map<OpId, Op>, revision: nat, dev: DeviceStatus)
    ensures Aggregate(Base(Early(a, b), ops, revision, Phone(dev)), 1) == Worse(a, b)
  {
    EarlyStates(a, b, ops, revision, dev, Blocked);
    EarlyStates(a, b, ops, revision, dev, Running);
    EarlyStates(a, b, ops, revision, dev, Awaiting);
    EarlyStates(a, b, ops, revision, dev, Superseded);
  }

  lemma RefreshEarly(a: Status, b: Status)
    ensures Refresh(Base(Early(a, b), Ops1(OpRunning), 2, Phone(Active)), 1) == Base(Early(a, b), Ops1(Worse(a, b)), 2, Phone(Active))
  {
    QuietRefresh(Early(a, b), Ops1(OpRunning), 2, Active, 1);
    EarlyAggregate(a, b, Ops1(OpRunning), 2, Active);
    assert Ops1(OpRunning)[1 := Op(1, 2, Worse(a, b))] == Ops1(Worse(a, b));
  }

  lemma FirstOf(db: Db, id: TaskId)
    requires Eligible(db, id) && forall j :: j in db.tasks && j != id && db.tasks[j].status.Awaiting? ==> Before(db.tasks, id, j)
    ensures FirstEligible(db, id)
  {
  }

  // ----- The device is created and its peers are set up -----

  lemma PhonePeers(tasks: map<TaskId, Task>, ops: map<OpId, Op>, revision: nat, st: DeviceStatus)
    ensures var db := Base(tasks, ops, revision, Phone(st));
      Peers(db, 1, Awg) == map[5 := Peer(10, st.Active?, 7)] && Peers(db, 1, Xray) == map[5 := Peer(11, st.Active?, 7)]
  {
    var db := Base(tasks, ops, revision, Phone(st));
    assert Peers(db, 1, Awg) == map[5 := Peer(10, st.Active?, 7)];
    assert Peers(db, 1, Xray) == map[5 := Peer(11, st.Active?, 7)];
  }

  lemma CoversBoth(db: Db, made: map<TaskId, Task>, i: TaskId, j: TaskId)
    requires Peers(db, 1, Awg).Keys == {5} && Peers(db, 1, Xray).Keys == {5} && i in made && j in made
    requires made[i].node == 1 && made[i].slot == 5 && made[i].protocol.Awg?
    requires made[j].node == 1 && made[j].slot == 5 && made[j].protocol.Xray?
    ensures Covers(db, 1, BOTH, made)
  {
    forall n, protocol, s | (n, protocol) in BOTH && Actionable(db, n) && s in Peers(db, 1, protocol)
      ensures exists id :: id in made && made[id].node == n && made[id].protocol == protocol && made[id].slot == s
    {
      assert made[if protocol.Awg? then i else j].slot == s;
    }
  }

  lemma BothTargets(tasks: map<TaskId, Task>, ops: map<OpId, Op>, revision: nat, st: DeviceStatus)
    requires forall i :: i in tasks ==> tasks[i].node == 1
    ensures Targets(Base(tasks, ops, revision, Phone(st)), 1) == BOTH
  {
    forall i | i in tasks
      ensures (tasks[i].node, tasks[i].protocol) in BOTH
    {
      assert tasks[i].protocol == Awg || tasks[i].protocol == Xray;
    }
  }

  /** A device command can commit, given the tables m before it records. */
  ghost predicate CommandReady(s: System, a: Action, m: System, op: OpId, made: map<TaskId, Task>, s': System) {
    s.dirty == {} && Commands(s, a, m) && CommandProfile(s.db, a) == 1 && 1 in m.db.profiles && Targets(m.db, 1) == BOTH &&
    op !in s.db.ops && made.Keys !! s.db.tasks.Keys && s' == s.(db := Enqueued(m.db, 1, op, made)) &&
    MadeRows(m.db, 1, op, 0, BOTH, made) && Covers(m.db, 1, BOTH, made)
  }

  lemma ReachCommand(s: System, a: Action, m: System, op: OpId, made: map<TaskId, Task>, s': System)
    requires Reached(s) && CommandReady(s, a, m, op, made, s')
    ensures Reached(s')
  {
    Reach(s, Commanding(a, op, 0, made), s');
  }

  lemma TwoRows(db: Db, op: OpId, made: map<TaskId, Task>, i: TaskId, j: TaskId, a: Task, b: Task)
    requires made == map[i := a, j := b] && i != j && 1 in db.profiles && a.protocol != b.protocol
    requires MadeRow(db, 1, op, 0, BOTH, a) && MadeRow(db, 1, op, 0, BOTH, b)
    ensures MadeRows(db, 1, op, 0, BOTH, made)
  {
    assert forall x :: x in made ==> (x == i && made[x] == a) || (x == j && made[x] == b);
  }

  const NEW := System(Base(map[], map[], 2, Phone(Active)), START.w, {})
  const QUEUED := System(Base(Early(Awaiting, Awaiting), Ops1(OpAwaiting), 2, Phone(Active)), START.w, {})

  lemma FirstRows()
    ensures MadeRows(NEW.db, 1, 1, 0, BOTH, Early(Awaiting, Awaiting)) && Covers(NEW.db, 1, BOTH, Early(Awaiting, Awaiting))
  {
    PhonePeers(map[], map[], 2, Active);
    CoversBoth(NEW.db, Early(Awaiting, Awaiting), 1, 2);
    EnsureRow(1);
    EnsureRow(2);
    TwoRows(NEW.db, 1, Early(Awaiting, Awaiting), 1, 2, Row(1, Awaiting), Row(2, Awaiting));
  }

  lemma EnsureRow(id: TaskId)
    requires id == 1 || id == 2
    ensures MadeRow(NEW.db, 1, 1, 0, BOTH, Row(id, Awaiting))
  {
    PhonePeers(map[], map[], 2, Active);
  }

  lemma RemovalRow(id: TaskId)
    requires id == 3 || id == 4
    ensures MadeRow(GOING.db, 1, 2, 0, BOTH, Row(id, Awaiting))
  {
    PhonePeers(GOING.db.tasks, GOING.db.ops, 3, Deleting);
  }

  lemma FirstEnqueued()
    ensures Enqueued(NEW.db, 1, 1, Early(Awaiting, Awaiting)) == QUEUED.db
  {
    var made := Early(Awaiting, Awaiting);
    assert map[] + made == made && 1 in made;
    var db := Record(NEW.db, 1, 1, made);
    assert db == QUEUED.db;
    assert SettleDevices(db).devices == db.devices;
    assert SettlePeers(db).peers == db.peers;
  }

  lemma Created()
    ensures Commands(START, AddDevice(5, Phone(Active)[5]), NEW)
  {
    var a := AddDevice(5, Phone(Active)[5]);
    var x := System(Base(map[], map[], 1, Phone(Active)), START.w, {});
    assert map[][5 := Phone(Active)[5]] == Phone(Active);
    assert AddDeviceRule(START, 5, Phone(Active)[5], x);
    assert Next(START, a, x);
  }

  lemma FreshFirst()
    ensures 1 !in START.db.ops && Early(Awaiting, Awaiting).Keys !! START.db.tasks.Keys
    ensures CommandProfile(START.db, AddDevice(5, Phone(Active)[5])) == 1
    ensures QUEUED == START.(db := Enqueued(NEW.db, 1, 1, Early(Awaiting, Awaiting)))
  {
    FirstEnqueued();
  }

  lemma FirstReady()
    ensures CommandReady(START, AddDevice(5, Phone(Active)[5]), NEW, 1, Early(Awaiting, Awaiting), QUEUED)
  {
    FirstRows();
    BothTargets(map[], map[], 2, Active);
    FreshFirst();
    Created();
  }

  lemma AtStart()
    ensures Reached(START)
  {
    assert EndsIn(History([START], []), START);
  }

  lemma AtQueued()
    ensures Reached(QUEUED)
  {
    AtStart();
    FirstReady();
    ReachCommand(START, AddDevice(5, Phone(Active)[5]), NEW, 1, Early(Awaiting, Awaiting), QUEUED);
  }

  const W1 := World({}, [1], {1}, {}, {PEER}, map[PEER := 0])
  const W2 := World({}, [1, 2], {1, 2}, {}, {PEER, CLIENT}, map[PEER := 0, CLIENT := 7])
  const HALF := System(Base(Early(Succeeded, Awaiting), Ops1(OpAwaiting), 2, Phone(Active)), W1, {})
  const SET_UP := System(Base(Early(Succeeded, Succeeded), Ops1(OpSucceeded), 2, Phone(Active)), W2, {})

  lemma AwgFirst()
    ensures FirstEligible(QUEUED.db, 1) && !Refused(QUEUED.db, QUEUED.db.tasks[1])
  {
    assert Eligible(QUEUED.db, 1);
    FirstOf(QUEUED.db, 1);
  }

  lemma AwgClaimed()
    ensures ClaimTask(QUEUED.db, 1) == Base(Early(Running, Awaiting), Ops1(OpRunning), 2, Phone(Active))
  {
    assert SetTasks(QUEUED.db, {1}, Running).tasks == Early(Running, Awaiting);
  }

  lemma AwgFinished()
    ensures FinishTx(Base(Early(Running, Awaiting), Ops1(OpRunning), 2, Phone(Active)), 1, true) == HALF.db
  {
    var db := Base(Early(Running, Awaiting), Ops1(OpRunning), 2, Phone(Active));
    assert SetTasks(db, {1}, Succeeded).tasks == Early(Succeeded, Awaiting);
    RefreshEarly(Succeeded, Awaiting);
  }

  lemma AtHalf()
    ensures Reached(HALF)
  {
    AtQueued();
    AwgFirst();
    AwgClaimed();
    var db := Base(Early(Running, Awaiting), Ops1(OpRunning), 2, Phone(Active));
    CarriedOut(QUEUED, 1, db, W1);
    AwgFinished();
    Reach(System(db, W1, {}), Finishing(1, true), HALF);
  }

  lemma XrayFirst()
    ensures FirstEligible(HALF.db, 2) && !Refused(HALF.db, HALF.db.tasks[2])
  {
    assert Eligible(HALF.db, 2);
    FirstOf(HALF.db, 2);
  }

  lemma XrayClaimed()
    ensures ClaimTask(HALF.db, 2) == Base(Early(Succeeded, Running), Ops1(OpRunning), 2, Phone(Active))
  {
    assert SetTasks(HALF.db, {2}, Running).tasks == Early(Succeeded, Running);
  }

  lemma XrayFinished()
    ensures FinishTx(Base(Early(Succeeded, Running), Ops1(OpRunning), 2, Phone(Active)), 2, true) == SET_UP.db
  {
    var db := Base(Early(Succeeded, Running), Ops1(OpRunning), 2, Phone(Active));
    assert SetTasks(db, {2}, Succeeded).tasks == Early(Succeeded, Succeeded);
    RefreshEarly(Succeeded, Succeeded);
  }

  lemma AtSetUp()
    ensures Reached(SET_UP)
  {
    AtHalf();
    XrayFirst();
    XrayClaimed();
    var db := Base(Early(Succeeded, Running), Ops1(OpRunning), 2, Phone(Active));
    CarriedOut(HALF, 2, db, W2);
    XrayFinished();
    Reach(System(db, W2, {}), Finishing(2, true), SET_UP);
  }

  // ----- The device is deleted -----

  const REMOVALS: map<TaskId, Task> := map[3 := Row(3, Awaiting), 4 := Row(4, Awaiting)]
  const GOING := System(Base(Early(Succeeded, Succeeded), Ops1(OpSucceeded), 3, Phone(Deleting)), W2, {})
  const DELETED := System(Base(Late(Awaiting, Awaiting), Ops2(OpAwaiting), 3, Phone(Deleting)), W2, {})

  lemma SecondRows()
    ensures MadeRows(GOING.db, 1, 2, 0, BOTH, REMOVALS) && Covers(GOING.db, 1, BOTH, REMOVALS)
  {
    PhonePeers(GOING.db.tasks, GOING.db.ops, 3, Deleting);
    CoversBoth(GOING.db, REMOVALS, 4, 3);
    RemovalRow(3);
    RemovalRow(4);
    TwoRows(GOING.db, 2, REMOVALS, 3, 4, Row(3, Awaiting), Row(4, Awaiting));
  }

  lemma SecondEnqueued()
    ensures Enqueued(GOING.db, 1, 2, REMOVALS) == DELETED.db
  {
    var db := Record(GOING.db, 1, 2, REMOVALS);
    assert Early(Succeeded, Succeeded) + REMOVALS == Late(Awaiting, Awaiting) && 3 in REMOVALS;
    assert Ops1(OpSucceeded)[2 := Op(1, 3, OpAwaiting)] == Ops2(OpAwaiting);
    assert db == DELETED.db;
    assert InSlot(db.tasks, 1, 5, 3) && !NothingUncertain(db, 1, 5);
    assert SettleDevices(db).devices == db.devices;
    assert SettlePeers(db).peers == db.peers;
  }

  lemma Deleted()
    ensures Commands(SET_UP, DeleteDevice(5), GOING)
  {
    assert DeleteDeviceRule(SET_UP, 5, GOING);
    assert Next(SET_UP, DeleteDevice(5), GOING);
  }

  lemma FreshRemovals()
    ensures 2 !in SET_UP.db.ops && REMOVALS.Keys !! SET_UP.db.tasks.Keys && CommandProfile(SET_UP.db, DeleteDevice(5)) == 1
    ensures DELETED == SET_UP.(db := Enqueued(GOING.db, 1, 2, REMOVALS))
  {
    assert REMOVALS.Keys == {3, 4} && SET_UP.db.tasks.Keys == {1, 2};
    SecondEnqueued();
  }

  lemma SecondReady()
    ensures CommandReady(SET_UP, DeleteDevice(5), GOING, 2, REMOVALS, DELETED)
  {
    SecondRows();
    BothTargets(GOING.db.tasks, GOING.db.ops, 3, Deleting);
    Deleted();
    FreshRemovals();
  }

  lemma AtDeleted()
    ensures Reached(DELETED)
  {
    AtSetUp();
    SecondReady();
    ReachCommand(SET_UP, DeleteDevice(5), GOING, 2, REMOVALS, DELETED);
  }

  // ----- The Xray removal is blocked and cancelled by force -----

  const W3 := World({}, [1, 2, 3], {1, 2}, {}, {PEER, CLIENT}, W2.carried)
  const W4 := W3.(fenced := {3})
  const STUCK := System(Base(Late(Blocked, Awaiting), Ops2(OpBlocked), 3, Phone(Deleting)), W3, {})
  const CANCELLED := System(Base(Late(Superseded, Awaiting), Ops2(OpAwaiting), 4, Phone(Deleting)), W4, {})

  lemma RemovalFirst()
    ensures FirstEligible(DELETED.db, 3) && !Refused(DELETED.db, DELETED.db.tasks[3])
  {
    assert Eligible(DELETED.db, 3);
    FirstOf(DELETED.db, 3);
  }

  lemma RemovalClaimed()
    ensures ClaimTask(DELETED.db, 3) == Base(Late(Running, Awaiting), Ops2(OpRunning), 3, Phone(Deleting))
  {
    assert SetTasks(DELETED.db, {3}, Running).tasks == Late(Running, Awaiting);
  }

  lemma RemovalBlocked()
    ensures FinishTx(Base(Late(Running, Awaiting), Ops2(OpRunning), 3, Phone(Deleting)), 3, false) == STUCK.db
  {
    var db := Base(Late(Running, Awaiting), Ops2(OpRunning), 3, Phone(Deleting));
    assert SetTasks(db, {3}, Blocked).tasks == Late(Blocked, Awaiting);
    var m := Base(Late(Blocked, Awaiting), Ops2(OpRunning), 3, Phone(Deleting));
    assert InSlot(m.tasks, 1, 5, 4);
    QuietRefresh(m.tasks, m.ops, 3, Deleting, 2);
    LateAggregate(Blocked, Awaiting, m.ops, 3, Deleting);
  }

  lemma AtStuck()
    ensures Reached(STUCK)
  {
    AtDeleted();
    RemovalFirst();
    RemovalClaimed();
    var db := Base(Late(Running, Awaiting), Ops2(OpRunning), 3, Phone(Deleting));
    Called(DELETED, 3, db);
    assert W2.(dispatched := W2.dispatched + [3]) == W3;
    RemovalBlocked();
    Reach(System(db, W3, {}), Finishing(3, false), STUCK);
  }

  lemma Cancels()
    ensures CancelTx(STUCK.db, 3, []) == CANCELLED.db
    ensures OldOps(SetTasks(STUCK.db, {3}, Superseded).tasks, STUCK.db.tasks[3]) == {}
  {
    assert SetTasks(STUCK.db, {3}, Superseded).tasks == Late(Superseded, Awaiting);
    var m := Base(Late(Superseded, Awaiting), Ops2(OpBlocked), 4, Phone(Deleting));
    assert Bump(SetTasks(STUCK.db, {3}, Superseded), 1) == m;
    CancelRefreshes(m);
    assert ReleaseSettings(CANCELLED.db, 1, Xray).settings == map[];
  }

  lemma CancelRefreshes(m: Db)
    requires m == Base(Late(Superseded, Awaiting), Ops2(OpBlocked), 4, Phone(Deleting))
    ensures Refresh(m, 2) == CANCELLED.db
  {
    assert InSlot(m.tasks, 1, 5, 4);
    QuietRefresh(m.tasks, m.ops, 4, Deleting, 2);
    LateAggregate(Superseded, Awaiting, m.ops, 4, Deleting);
  }

  lemma AtCancelled()
    ensures Reached(CANCELLED)
  {
    AtStuck();
    var fenced := System(STUCK.db, W4, {});
    assert FenceRule(STUCK, 3, fenced);
    Reach(STUCK, Single(Fence(3)), fenced);
    Cancels();
    Reach(fenced, Cancelling(3, []), CANCELLED);
  }

  // ----- The AWG removal succeeds -----

  const W5 := World({}, [1, 2, 3, 4], {1, 2, 4}, {3}, {CLIENT}, W2.carried)
  const LAST := System(Base(Late(Superseded, Running), Ops2(OpRunning), 4, Phone(Deleting)), W5, {})
  const RETIRED := System(Base(Late(Superseded, Succeeded), Ops2(OpSuperseded), 4, Phone(DeviceStatus.Retired)), W5, {})

  lemma LastFirst()
    ensures FirstEligible(CANCELLED.db, 4) && !Refused(CANCELLED.db, CANCELLED.db.tasks[4])
  {
    assert Eligible(CANCELLED.db, 4);
    FirstOf(CANCELLED.db, 4);
  }

  lemma LastClaimed()
    ensures ClaimTask(CANCELLED.db, 4) == LAST.db
  {
    assert SetTasks(CANCELLED.db, {4}, Running).tasks == Late(Superseded, Running);
  }

  lemma AtLast()
    ensures Reached(LAST)
  {
    AtCancelled();
    LastFirst();
    LastClaimed();
    assert W4.remote - {PEER} == {CLIENT};
    CarriedOut(CANCELLED, 4, LAST.db, W5);
  }

  /** The row of the AWG removal is listed first for the node, so the device counts as removed from it. */
  lemma Settles(db: Db)
    requires db == Base(Late(Superseded, Succeeded), Ops2(OpSuperseded), 4, Phone(Deleting))
    ensures SettleAccounts(SettlePeers(SettleDevices(db))) == RETIRED.db
  {
    assert NothingUncertain(db, 1, 5);
    forall id | NewestOnNode(db.tasks, 1, 5, id)
      ensures Removed(db, id)
    {
      assert InSlot(db.tasks, 1, 5, 4);
    }
    assert SettleDevices(db).devices == Phone(DeviceStatus.Retired);
    NothingElse(RETIRED.db);
  }

  lemma LastFinished()
    ensures FinishTx(LAST.db, 4, true) == RETIRED.db
  {
    assert SetTasks(LAST.db, {4}, Succeeded).tasks == Late(Superseded, Succeeded);
    var m := Base(Late(Superseded, Succeeded), Ops2(OpRunning), 4, Phone(Deleting));
    LateAggregate(Superseded, Succeeded, m.ops, 4, Deleting);
    Settles(RefreshStatus(m, 2));
  }

  /** A history of whole transactions whose last one, the success of an AWG removal, retires a device while its Xray
      client is on a node in service. */
  lemma RetiredWithLiveClient() returns (h: History)
    ensures IsHistory(h) && |h.commits| > 0
    ensures var i := |h.commits| - 1;
      h.commits[i] == Finishing(4, true) && 5 in h.states[i].db.devices && h.states[i].db.devices[5].status.Deleting? &&
      5 in h.states[i + 1].db.devices && h.states[i + 1].db.devices[5].status.Retired? && 1 in h.states[i + 1].db.nodes &&
      PeerOf(h.states[i + 1].db, 5, 1, Xray) in h.states[i + 1].w.remote && LeftOver(h.states[i + 1].db, CLIENT)
  {
    AtLast();
    LastCommits();
    ClientLeftOver();
    var before :| EndsIn(before, LAST);
    h := Extend(before, LAST, Finishing(4, true), RETIRED);
  }

  lemma LastCommits()
    ensures Commits(LAST, Finishing(4, true), RETIRED)
  {
    LastFinished();
  }

  lemma ClientLeftOver()
    ensures LeftOver(RETIRED.db, CLIENT)
  {
    assert OnKey(RETIRED.db, 2, CLIENT) && !Covered(RETIRED.db, 2, CLIENT);
  }
}
