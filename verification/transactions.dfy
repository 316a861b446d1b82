/** What each committed transaction does to the tables, and that it is a sequence of steps of the run system. */
module Transactions {
  import opened Tables
  import opened OutboxRun
  import opened OutboxInvariants
  import opened OutboxTables
  import opened OutboxSteps
  import opened OutboxTheorems

  ghost function RefreshAll(db: Db, ops: seq<OpId>): Db {
    if ops == [] then db else Refresh(RefreshAll(db, ops[..|ops| - 1]), ops[|ops| - 1])
  }

  /** Protocol removal writes the statuses back without settling anything. */
  function StatusAll(db: Db, ops: seq<OpId>): Db {
    if ops == [] then db else RefreshStatus(StatusAll(db, ops[..|ops| - 1]), ops[|ops| - 1])
  }

  /** run_one retires an ensure it will not send. */
  ghost function RefuseTx(db: Db, id: TaskId): Db
    requires id in db.tasks
  {
    Refresh(SetTasks(db, {id}, Superseded), db.tasks[id].op)
  }

  /** run_one records what the driver answered, if the row is still running. */
  ghost function FinishTx(db: Db, id: TaskId, ok: bool): Db
    requires id in db.tasks
  {
    Refresh(SetTasks(db, if db.tasks[id].status.Running? then {id} else {}, if ok then Succeeded else Blocked), db.tasks[id].op)
  }

  /** One row of reconcile_completed. */
  ghost function ReconcileTx(db: Db, id: TaskId): Db
    requires id in db.tasks
  {
    if db.tasks[id].status.Blocked? then Refresh(SetTasks(db, {id}, Succeeded), db.tasks[id].op) else db
  }

  /** The profile row gets a new operation; a pending deletion now waits for it. */
  ghost function ReplaceOperation(db: Db, p: ProfileId, op: OpId, made: map<TaskId, Task>): Db
    requires p in db.profiles
  {
    var next := Record(db, p, op, made);
    SettleAccounts(if p in db.deletions then next.(deletions := next.deletions[p := Some(op)]) else next)
  }

  /** The tables of resolve_blocked just before it records the new operation. */
  ghost function Cleared(db: Db, id: TaskId, order: seq<OpId>): Db
    requires id in db.tasks
  {
    Bump(RefreshAll(SetTasks(db, RepairSet(db, id), Superseded), order), db.tasks[id].profile)
  }

  /** The device commands that raise the profile's revision: create, delete and rotate. */
  predicate OnDevice(db: Db, a: Action) {
    a.AddDevice? || ((a.DeleteDevice? || a.RotateAwg? || a.RotateXray?) && a.d in db.devices)
  }

  function CommandProfile(db: Db, a: Action): ProfileId
    requires OnDevice(db, a)
  {
    if a.AddDevice? then a.row.profile else db.devices[a.d].profile
  }

  /** The tables just before a device command records its operation; only creation raises the revision on its own. */
  ghost predicate Commands(s: System, a: Action, m: System) {
    OnDevice(s.db, a) &&
    exists x :: Next(s, a, x) && m == if a.AddDevice? then x.(db := Bump(x.db, a.row.profile)) else x
  }

  /** A device command's operation is recorded and deletions are settled. */
  ghost function Enqueued(db: Db, p: ProfileId, op: OpId, made: map<TaskId, Task>): Db
    requires p in db.profiles
  {
    SettlePeers(SettleDevices(Record(db, p, op, made)))
  }

  /** Queued rows of operation o for the same node, protocol and device as row t. */
  function Overtaken(tasks: map<TaskId, Task>, t: Task, o: OpId): set<TaskId> {
    set i | i in tasks && tasks[i].op == o && SameTarget(tasks[i], t) && tasks[i].status.Awaiting?
  }

  /** force_recovery.cancel withdraws the queued rows its command overtook, operation by operation. */
  ghost function WithdrawAll(db: Db, t: Task, ops: seq<OpId>): Db {
    if ops == [] then db
    else
      var before := WithdrawAll(db, t, ops[..|ops| - 1]);
      Refresh(SetTasks(before, Overtaken(before.tasks, t, ops[|ops| - 1]), Superseded), ops[|ops| - 1])
  }

  /** Queued settings tasks that wait for the revocation of the protocol on the node are withdrawn. */
  function ReleaseSettings(db: Db, n: NodeKey, protocol: Protocol): Db {
    db.(settings := map x | x in db.settings ::
          if db.settings[x].node == n && db.settings[x].status.Awaiting? && protocol in db.settings[x].removes
          then db.settings[x].(status := Superseded) else db.settings[x])
  }

  ghost function CancelTx(db: Db, id: TaskId, order: seq<OpId>): Db
    requires id in db.tasks
  {
    var t := db.tasks[id];
    ReleaseSettings(Refresh(Bump(WithdrawAll(SetTasks(db, {id}, Superseded), t, order), t.profile), t.op), t.node, t.protocol)
  }

  /** Operations with a queued row no newer than t for the same node, protocol and device. */
  function OldOps(tasks: map<TaskId, Task>, t: Task): set<OpId> {
    set i | i in tasks && tasks[i].profile == t.profile && SameTarget(tasks[i], t) && tasks[i].revision <= t.revision &&
            tasks[i].status.Awaiting? :: tasks[i].op
  }

  ghost predicate Lists(order: seq<OpId>, ops: set<OpId>) { forall o :: o in order <==> o in ops }

  // ----- Sequences of steps -----

  ghost predicate Fragment(r: Run, s: System, s': System) {
    |r.states| == |r.actions| + 1 && r.states[0] == s && r.states[|r.actions|] == s' &&
    forall i: nat :: i < |r.actions| ==> StepAt(r, i)
  }

  /** Some sequence of steps goes from s to s'. */
  ghost predicate Leads(s: System, s': System) { exists r :: Fragment(r, s, s') }

  lemma Stay(s: System)
    ensures Leads(s, s)
  {
    assert Fragment(Run([s], []), s, s);
  }

  lemma Step(s: System, a: Action, s': System)
    requires Next(s, a, s')
    ensures Leads(s, s')
  {
    var r := Run([s, s'], [a]);
    assert StepAt(r, 0);
    assert Fragment(r, s, s');
  }

  function Join(a: Run, b: Run): Run
    requires |b.states| > 0
  {
    Run(a.states + b.states[1..], a.actions + b.actions)
  }

  lemma Joined(a: Run, b: Run, s: System, m: System, s': System)
    requires Fragment(a, s, m) && Fragment(b, m, s')
    ensures Fragment(Join(a, b), s, s')
  {
    var r, n := Join(a, b), |a.actions|;
    forall i: nat | i < |r.actions|
      ensures StepAt(r, i)
    {
      if i < n { assert StepAt(a, i); } else { assert StepAt(b, i - n); }
      assert i >= n ==> r.states[i] == b.states[i - n];
    }
  }

  lemma Onward(s: System, m: System, s': System)
    requires Leads(s, m) && Leads(m, s')
    ensures Leads(s, s')
  {
    var a :| Fragment(a, s, m);
    var b :| Fragment(b, m, s');
    Joined(a, b, s, m, s');
  }

  /** A run followed by a sequence of steps is a run. */
  lemma RunOnward(r: Run, s: System, s': System) returns (r': Run)
    requires IsRun(r) && r.states[|r.actions|] == s && Leads(s, s')
    ensures IsRun(r') && r'.states[|r'.actions|] == s' && |r.actions| <= |r'.actions|
    ensures forall i :: 0 <= i <= |r.actions| ==> r'.states[i] == r.states[i]
  {
    var b :| Fragment(b, s, s');
    Joined(r, b, r.states[0], s, s');
    r' := Join(r, b);
  }

  // ----- refresh_operation as steps -----

  ghost function Refreshed(s: System, op: OpId): System { s.(db := Refresh(s.db, op), dirty := s.dirty - {op}) }

  lemma RefreshLeads(s: System, op: OpId)
    ensures Leads(s, Refreshed(s, op))
  {
    var a := s.(db := RefreshStatus(s.db, op), dirty := s.dirty - {op});
    Step(s, RefreshOp(op), a);
    SettlingLeads(a);
    Onward(s, a, Refreshed(s, op));
  }

  lemma SettlingLeads(a: System)
    ensures Leads(a, a.(db := SettleAccounts(SettlePeers(SettleDevices(a.db)))))
  {
    var b := a.(db := SettleDevices(a.db));
    var c := a.(db := SettlePeers(b.db));
    var d := a.(db := SettleAccounts(c.db));
    Step(a, SettleDeletions, b);
    Step(b, SettleOldPeers, c);
    Step(c, SettleOwners, d);
    Onward(a, b, c);
    Onward(a, c, d);
  }

  lemma {:induction false} StatusAllLeads(s: System, ops: seq<OpId>)
    ensures Leads(s, s.(db := StatusAll(s.db, ops), dirty := set o | o in s.dirty && o !in ops))
  {
    var end := s.(db := StatusAll(s.db, ops), dirty := set o | o in s.dirty && o !in ops);
    if ops == [] {
      assert end == s;
      Stay(s);
    } else {
      var rest, last := ops[..|ops| - 1], ops[|ops| - 1];
      var m := s.(db := StatusAll(s.db, rest), dirty := set o | o in s.dirty && o !in rest);
      StatusAllLeads(s, rest);
      assert ops == rest + [last];
      assert end.dirty == m.dirty - {last};
      Step(m, RefreshOp(last), end);
      Onward(s, m, end);
    }
  }

  ghost function RefreshedAll(s: System, ops: seq<OpId>): System {
    s.(db := RefreshAll(s.db, ops), dirty := set o | o in s.dirty && o !in ops)
  }

  lemma {:induction false} RefreshAllLeads(s: System, ops: seq<OpId>)
    ensures Leads(s, RefreshedAll(s, ops))
  {
    if ops == [] {
      assert RefreshedAll(s, ops) == s;
      Stay(s);
    } else {
      var m := RefreshedAll(s, ops[..|ops| - 1]);
      RefreshAllLeads(s, ops[..|ops| - 1]);
      RefreshLeads(m, ops[|ops| - 1]);
      assert ops == ops[..|ops| - 1] + [ops[|ops| - 1]];
      assert RefreshedAll(s, ops).dirty == Refreshed(m, ops[|ops| - 1]).dirty;
      Onward(s, m, RefreshedAll(s, ops));
    }
  }

  lemma RefreshKeepsTasks(db: Db, op: OpId)
    ensures Refresh(db, op).tasks == db.tasks && SameOps(db, Refresh(db, op))
    ensures Refresh(db, op).profiles == db.profiles && Refresh(db, op).deletions == db.deletions
  {
    SetOpKeeps(db, op, Aggregate(db, op));
    SettlingKeeps(RefreshStatus(db, op));
  }

  lemma SetOpKeeps(db: Db, op: OpId, st: OpStatus)
    ensures SetOp(db, op, st).tasks == db.tasks && SetOp(db, op, st).profiles == db.profiles
    ensures SetOp(db, op, st).deletions == db.deletions && SameOps(db, SetOp(db, op, st))
  {
    if op in db.ops { SameOpRows(db.ops, op, db.ops[op].(status := st)); }
  }

  lemma SameOpRows(ops: map<OpId, Op>, op: OpId, row: Op)
    requires op in ops && row.profile == ops[op].profile && row.revision == ops[op].revision
    ensures ops[op := row].Keys == ops.Keys
    ensures forall o :: o in ops ==> ops[op := row][o].profile == ops[o].profile && ops[op := row][o].revision == ops[o].revision
  {
  }

  lemma SettlingKeeps(db: Db)
    ensures var e := SettleAccounts(SettlePeers(SettleDevices(db)));
      e.tasks == db.tasks && e.ops == db.ops && e.profiles == db.profiles && e.deletions == db.deletions
  {
  }

  lemma {:induction false} RefreshAllKeepsTasks(db: Db, ops: seq<OpId>)
    ensures RefreshAll(db, ops).tasks == db.tasks && SameOps(db, RefreshAll(db, ops))
    ensures RefreshAll(db, ops).profiles == db.profiles && RefreshAll(db, ops).deletions == db.deletions
  {
    if ops == [] {
    } else {
      RefreshAllKeepsTasks(db, ops[..|ops| - 1]);
      RefreshKeepsTasks(RefreshAll(db, ops[..|ops| - 1]), ops[|ops| - 1]);
    }
  }

  // ----- Committed transactions -----

  datatype Transaction =
    | Claiming(id: TaskId)
    | Refusing(id: TaskId)
    | Finishing(id: TaskId, ok: bool)
    | Reconciling(id: TaskId)
    | Repairing(id: TaskId, order: seq<OpId>, op: OpId, created: nat, made: map<TaskId, Task>)
    | Cancelling(id: TaskId, order: seq<OpId>)
    | Commanding(a: Action, op: OpId, created: nat, made: map<TaskId, Task>)
    | Withdrawing(ids: set<TaskId>, order: seq<OpId>)
    | Abandoning(n: NodeKey, order: seq<OpId>)
    | Single(a: Action)                    // a transaction of one step, or something the world does

  /** The row is blocked and the agent has retired its command. */
  predicate Retirable(s: System, id: TaskId) {
    id in s.db.tasks && s.db.tasks[id].status.Blocked? && id in s.w.fenced
  }

  /** What resolve_blocked leaves behind. */
  ghost predicate Repaired(db: Db, id: TaskId, order: seq<OpId>, op: OpId, created: nat, made: map<TaskId, Task>, db': Db) {
    id in db.tasks && db.tasks[id].profile in db.profiles && Lists(order, OpsOf(db, RepairSet(db, id))) &&
    var p, before := db.tasks[id].profile, Cleared(db, id, order);
    p in before.profiles && op !in before.ops && made.Keys !! before.tasks.Keys &&
    MadeRows(before, p, op, created, Targets(before, p), made) && Covers(before, p, Targets(before, p), made) &&
    db' == ReplaceOperation(before, p, op, made)
  }

  ghost predicate Commits(s: System, t: Transaction, s': System) {
    s.dirty == {} && s'.dirty == {} &&
    match t
    case Claiming(id) => FirstEligible(s.db, id) && Next(s, Claim(id), s')
    case Refusing(id) => FirstEligible(s.db, id) && Refused(s.db, s.db.tasks[id]) && s' == s.(db := RefuseTx(s.db, id))
    case Finishing(id, ok) => id in s.db.tasks && id !in s.w.held && (ok ==> id in s.w.applied) &&
      s' == s.(db := FinishTx(s.db, id, ok))
    case Reconciling(id) => id in s.db.tasks && id in s.w.applied && s' == s.(db := ReconcileTx(s.db, id))
    case Repairing(id, order, op, created, made) =>
      Retirable(s, id) && Repaired(s.db, id, order, op, created, made, s'.db) && s' == s.(db := s'.db)
    case Cancelling(id, order) => Retirable(s, id) && Lists(order, OldOps(SetTasks(s.db, {id}, Superseded).tasks, s.db.tasks[id])) &&
      s' == s.(db := CancelTx(s.db, id, order))
    case Commanding(a, op, created, made) => OnDevice(s.db, a) && op !in s.db.ops && made.Keys !! s.db.tasks.Keys &&
      var p := CommandProfile(s.db, a);
      exists m: System :: Commands(s, a, m) && p in m.db.profiles && s' == s.(db := Enqueued(m.db, p, op, made)) &&
        MadeRows(m.db, p, op, created, Targets(m.db, p), made) && Covers(m.db, p, Targets(m.db, p), made)
    case Withdrawing(ids, order) => (forall i :: i in ids ==> i in s.db.tasks && s.db.tasks[i].status.Awaiting?) &&
      Lists(order, OpsOf(s.db, ids)) && s' == s.(db := StatusAll(SetTasks(s.db, ids, Superseded), order))
    case Abandoning(n, order) => Lists(order, OpsOf(s.db, AbandonSet(s.db, n))) &&
      exists m :: Next(s, Abandon(n), m) && s' == RefreshedAll(m, order)
    case Single(a) => !MovesRows(a) && !a.Claim? && Next(s, a, s')
  }

  /** The first step of a transaction that moves task states, before its refreshes. */
  ghost function Marked(s: System, ids: set<TaskId>, st: Status): System {
    s.(db := SetTasks(s.db, ids, st), dirty := s.dirty + OpsOf(s.db, ids))
  }

  lemma OneRefresh(s: System, a: Action, ids: set<TaskId>, st: Status, op: OpId)
    requires s.dirty == {} && OpsOf(s.db, ids) <= {op} && Next(s, a, Marked(s, ids, st))
    ensures Leads(s, s.(db := Refresh(SetTasks(s.db, ids, st), op)))
  {
    var m := Marked(s, ids, st);
    Step(s, a, m);
    RefreshLeads(m, op);
    assert Refreshed(m, op) == s.(db := Refresh(SetTasks(s.db, ids, st), op));
    Onward(s, m, Refreshed(m, op));
  }

  lemma RefusingLeads(s: System, t: Transaction, s': System)
    requires t.Refusing? && Commits(s, t, s')
    ensures Leads(s, s')
  {
    OneRefresh(s, Refuse(t.id), {t.id}, Superseded, s.db.tasks[t.id].op);
  }

  lemma FinishingLeads(s: System, t: Transaction, s': System)
    requires t.Finishing? && Commits(s, t, s')
    ensures Leads(s, s')
  {
    OneRefresh(s, Finish(t.id, t.ok), if s.db.tasks[t.id].status.Running? then {t.id} else {},
               if t.ok then Succeeded else Blocked, s.db.tasks[t.id].op);
  }

  lemma ReconcilingLeads(s: System, t: Transaction, s': System)
    requires t.Reconciling? && Commits(s, t, s')
    ensures Leads(s, s')
  {
    if s.db.tasks[t.id].status.Blocked? {
      OneRefresh(s, Reconcile(t.id), {t.id}, Succeeded, s.db.tasks[t.id].op);
    } else {
      Stay(s);
    }
  }

  /** Marking rows and refreshing their operations, listed in any order. */
  lemma MarkAndRefresh(s: System, a: Action, ids: set<TaskId>, order: seq<OpId>)
    requires s.dirty == {} && Lists(order, OpsOf(s.db, ids)) && Next(s, a, Marked(s, ids, Superseded))
    ensures Leads(s, s.(db := RefreshAll(SetTasks(s.db, ids, Superseded), order)))
  {
    var m := Marked(s, ids, Superseded);
    Step(s, a, m);
    RefreshAllLeads(m, order);
    assert RefreshedAll(m, order).dirty == {};
    Onward(s, m, RefreshedAll(m, order));
  }

  /** Rows made at a revision just raised are newer than everything recorded for the profile. */
  lemma MadeAreRecordable(db: Db, m: Db, p: ProfileId, op: OpId, created: nat, targets: set<(NodeKey, Protocol)>, made: map<TaskId, Task>)
    requires Revisions(db) && p in db.profiles && op !in db.ops && made.Keys !! db.tasks.Keys
    requires m.tasks == db.tasks && m.ops == db.ops && m.profiles == Bump(db, p).profiles
    requires MadeRows(m, p, op, created, targets, made) && Covers(m, p, targets, made)
    ensures Recordable(m, p, op, created, targets, made)
  {
  }

  /** Raising the revision and recording an operation at it. */
  lemma RecordLeads(s: System, p: ProfileId, op: OpId, created: nat, targets: set<(NodeKey, Protocol)>, made: map<TaskId, Task>)
    requires Revisions(s.db) && p in s.db.profiles && op !in s.db.ops && made.Keys !! s.db.tasks.Keys
    requires MadeRows(Bump(s.db, p), p, op, created, targets, made) && Covers(Bump(s.db, p), p, targets, made)
    ensures Leads(s, s.(db := Record(Bump(s.db, p), p, op, made)))
  {
    MadeAreRecordable(s.db, Bump(s.db, p), p, op, created, targets, made);
    var a := s.(db := Bump(s.db, p));
    var b := s.(db := Record(a.db, p, op, made));
    Step(s, BumpProfile(p), a);
    Step(a, RecordOp(p, op, created, targets, made), b);
    Onward(s, a, b);
  }

  /** Pointing a deletion at an operation of the present revision, and settling accounts. */
  lemma PointLeads(b: System, p: ProfileId, op: OpId)
    requires p in b.db.profiles && op in b.db.ops && b.db.ops[op].profile == p && b.db.ops[op].revision == b.db.profiles[p].revision
    requires OpCovers(b.db, p, op)
    ensures var db := if p in b.db.deletions then b.db.(deletions := b.db.deletions[p := Some(op)]) else b.db;
      Leads(b, b.(db := SettleAccounts(db)))
  {
    var c := b.(db := if p in b.db.deletions then b.db.(deletions := b.db.deletions[p := Some(op)]) else b.db);
    if p in b.db.deletions { Step(b, PointDeletion(p, op), c); } else { Stay(b); }
    Step(c, SettleOwners, b.(db := SettleAccounts(c.db)));
    Onward(b, c, b.(db := SettleAccounts(c.db)));
  }

  lemma TargetsStay(db: Db, p: ProfileId, op: OpId, created: nat, made: map<TaskId, Task>)
    requires p in db.profiles && MadeRows(db, p, op, created, Targets(db, p), made)
    ensures Targets(Record(db, p, op, made), p) <= Targets(db, p)
  {
    var after := Record(db, p, op, made);
    forall id | id in after.tasks && after.tasks[id].profile == p
      ensures (after.tasks[id].node, after.tasks[id].protocol) in Targets(db, p)
    {
      if id in made { assert MadeRow(db, p, op, created, Targets(db, p), made[id]); }
    }
  }

  lemma PeersStay(db: Db, p: ProfileId, op: OpId, made: map<TaskId, Task>, protocol: Protocol, n: NodeKey)
    requires p in db.profiles
    ensures Peers(Record(db, p, op, made), p, protocol) == Peers(db, p, protocol)
    ensures Actionable(Record(db, p, op, made), n) == Actionable(db, n)
  {
  }

  lemma MadeHasRow(db: Db, p: ProfileId, op: OpId, created: nat, targets: set<(NodeKey, Protocol)>, made: map<TaskId, Task>, id: TaskId)
    requires p in db.profiles && id in made && MadeRow(db, p, op, created, targets, made[id])
    ensures HasRow(Record(db, p, op, made), op, made[id].node, made[id].protocol, made[id].slot)
  {
    var after := Record(db, p, op, made);
    assert id in after.tasks && after.tasks[id] == made[id];
  }

  /** Right after it is recorded for all targets, an operation covers them. */
  lemma RecordCovers(db: Db, p: ProfileId, op: OpId, created: nat, made: map<TaskId, Task>)
    requires p in db.profiles && MadeRows(db, p, op, created, Targets(db, p), made) && Covers(db, p, Targets(db, p), made)
    ensures OpCovers(Record(db, p, op, made), p, op)
  {
    TargetsStay(db, p, op, created, made);
    forall n, protocol, slot | (n, protocol) in Targets(Record(db, p, op, made), p) && Actionable(Record(db, p, op, made), n) &&
                               slot in Peers(Record(db, p, op, made), p, protocol)
      ensures HasRow(Record(db, p, op, made), op, n, protocol, slot)
    {
      PeersStay(db, p, op, made, protocol, n);
      var id :| id in made && made[id].node == n && made[id].protocol == protocol && made[id].slot == slot;
      MadeHasRow(db, p, op, created, Targets(db, p), made, id);
    }
  }

  lemma ReplaceLeads(s: System, p: ProfileId, op: OpId, created: nat, made: map<TaskId, Task>)
    requires Revisions(s.db) && p in s.db.profiles && op !in s.db.ops && made.Keys !! s.db.tasks.Keys
    requires MadeRows(Bump(s.db, p), p, op, created, Targets(Bump(s.db, p), p), made)
    requires Covers(Bump(s.db, p), p, Targets(Bump(s.db, p), p), made)
    ensures Leads(s, s.(db := ReplaceOperation(Bump(s.db, p), p, op, made)))
  {
    RecordLeads(s, p, op, created, Targets(Bump(s.db, p), p), made);
    RecordCovers(Bump(s.db, p), p, op, created, made);
    var b := s.(db := Record(Bump(s.db, p), p, op, made));
    PointLeads(b, p, op);
    Onward(s, b, s.(db := ReplaceOperation(Bump(s.db, p), p, op, made)));
  }

  lemma ClearedRevisions(db: Db, ids: set<TaskId>, order: seq<OpId>)
    requires Revisions(db)
    ensures var m := RefreshAll(SetTasks(db, ids, Superseded), order);
      Revisions(m) && m.profiles == db.profiles && m.ops.Keys == db.ops.Keys && m.tasks.Keys == db.tasks.Keys
  {
    RefreshAllKeepsTasks(SetTasks(db, ids, Superseded), order);
    FrameRevisions(db, RefreshAll(SetTasks(db, ids, Superseded), order));
  }

  lemma RepairingLeads(s: System, t: Transaction, s': System)
    requires Revisions(s.db) && t.Repairing? && Commits(s, t, s')
    ensures Leads(s, s')
  {
    var p, ids := s.db.tasks[t.id].profile, RepairSet(s.db, t.id);
    MarkAndRefresh(s, Repair(t.id), ids, t.order);
    var m := s.(db := RefreshAll(SetTasks(s.db, ids, Superseded), t.order));
    ClearedRevisions(s.db, ids, t.order);
    ReplaceLeads(m, p, t.op, t.created, t.made);
    Onward(s, m, s');
  }

  lemma WithdrawOne(m: System, t: Task, o: OpId)
    ensures Leads(m, m.(db := Refresh(SetTasks(m.db, Overtaken(m.db.tasks, t, o), Superseded), o), dirty := m.dirty - {o}))
  {
    var ids := Overtaken(m.db.tasks, t, o);
    var a := Marked(m, ids, Superseded);
    Step(m, Withdraw(ids), a);
    RefreshLeads(a, o);
    assert Refreshed(a, o).dirty == m.dirty - {o};
    Onward(m, a, Refreshed(a, o));
  }

  lemma {:induction false} WithdrawAllLeads(s: System, t: Task, ops: seq<OpId>)
    ensures Leads(s, s.(db := WithdrawAll(s.db, t, ops), dirty := set o | o in s.dirty && o !in ops))
  {
    var end := s.(db := WithdrawAll(s.db, t, ops), dirty := set o | o in s.dirty && o !in ops);
    if ops == [] {
      assert end == s;
      Stay(s);
    } else {
      var rest, last := ops[..|ops| - 1], ops[|ops| - 1];
      var m := s.(db := WithdrawAll(s.db, t, rest), dirty := set o | o in s.dirty && o !in rest);
      WithdrawAllLeads(s, t, rest);
      WithdrawOne(m, t, last);
      assert ops == rest + [last];
      assert end.dirty == m.dirty - {last};
      Onward(s, m, end);
    }
  }

  lemma ReleaseLeads(s: System, n: NodeKey, protocol: Protocol)
    ensures Leads(s, s.(db := ReleaseSettings(s.db, n, protocol)))
  {
    Step(s, Environment, s.(db := ReleaseSettings(s.db, n, protocol)));
  }

  lemma CancellingLeads(s: System, t: Transaction, s': System)
    requires t.Cancelling? && Commits(s, t, s')
    ensures Leads(s, s')
  {
    var row := s.db.tasks[t.id];
    var a := Marked(s, {t.id}, Superseded);
    Step(s, ForceCancel(t.id), a);
    var c := CancelWithdraws(s, a, row, t.order);
    CancelEnds(s, c, row, s');
  }

  lemma CancelWithdraws(s: System, a: System, row: Task, order: seq<OpId>) returns (c: System)
    requires Leads(s, a)
    ensures c == a.(db := Bump(WithdrawAll(a.db, row, order), row.profile), dirty := set o | o in a.dirty && o !in order)
    ensures Leads(s, c)
  {
    var b := a.(db := WithdrawAll(a.db, row, order), dirty := set o | o in a.dirty && o !in order);
    c := b.(db := Bump(b.db, row.profile));
    WithdrawAllLeads(a, row, order);
    Step(b, BumpProfile(row.profile), c);
    Onward(s, a, b);
    Onward(s, b, c);
  }

  lemma CancelEnds(s: System, c: System, row: Task, s': System)
    requires Leads(s, c) && c.dirty <= {row.op}
    requires s' == c.(db := ReleaseSettings(Refresh(c.db, row.op), row.node, row.protocol), dirty := {})
    ensures Leads(s, s')
  {
    RefreshLeads(c, row.op);
    Onward(s, c, Refreshed(c, row.op));
    ReleaseLeads(Refreshed(c, row.op), row.node, row.protocol);
    assert Refreshed(c, row.op).dirty == {};
    Onward(s, Refreshed(c, row.op), s');
  }

  lemma DeviceStep(s: System, a: Action, x: System)
    requires OnDevice(s.db, a) && Next(s, a, x)
    ensures x.w == s.w && x.dirty == s.dirty && x.db.tasks == s.db.tasks && x.db.ops == s.db.ops
    ensures x.db.profiles == if a.AddDevice? then s.db.profiles else Bump(s.db, CommandProfile(s.db, a)).profiles
  {
  }

  /** What a device command does before it records: rows stay, the profile's revision grows. */
  lemma CommandRaises(s: System, a: Action, m: System)
    requires Commands(s, a, m)
    ensures m.w == s.w && m.dirty == s.dirty && m.db.tasks == s.db.tasks && m.db.ops == s.db.ops
    ensures m.db.profiles == Bump(s.db, CommandProfile(s.db, a)).profiles
  {
    var x :| Next(s, a, x) && m == if a.AddDevice? then x.(db := Bump(x.db, a.row.profile)) else x;
    DeviceStep(s, a, x);
  }

  lemma CommandSteps(s: System, a: Action, m: System)
    requires Commands(s, a, m)
    ensures Leads(s, m)
  {
    var x :| Next(s, a, x) && m == if a.AddDevice? then x.(db := Bump(x.db, a.row.profile)) else x;
    Step(s, a, x);
    if a.AddDevice? {
      Step(x, BumpProfile(a.row.profile), m);
      Onward(s, x, m);
    }
  }

  lemma EnqueuedLeads(m: System, p: ProfileId, op: OpId, created: nat, made: map<TaskId, Task>)
    requires Recordable(m.db, p, op, created, Targets(m.db, p), made)
    ensures Leads(m, m.(db := Enqueued(m.db, p, op, made)))
  {
    var a := m.(db := Record(m.db, p, op, made));
    var b := m.(db := SettleDevices(a.db));
    var c := m.(db := SettlePeers(b.db));
    Step(m, RecordOp(p, op, created, Targets(m.db, p), made), a);
    Step(a, SettleDeletions, b);
    Step(b, SettleOldPeers, c);
    Onward(m, a, b);
    Onward(m, b, c);
  }

  lemma CommandingLeads(s: System, t: Transaction, s': System)
    requires Revisions(s.db) && t.Commanding? && Commits(s, t, s')
    ensures Leads(s, s')
  {
    var p := CommandProfile(s.db, t.a);
    var m: System :| Commands(s, t.a, m) && p in m.db.profiles && s' == s.(db := Enqueued(m.db, p, t.op, t.made)) &&
      MadeRows(m.db, p, t.op, t.created, Targets(m.db, p), t.made) && Covers(m.db, p, Targets(m.db, p), t.made);
    CommandRaises(s, t.a, m);
    CommandSteps(s, t.a, m);
    MadeAreRecordable(s.db, m.db, p, t.op, t.created, Targets(m.db, p), t.made);
    EnqueuedLeads(m, p, t.op, t.created, t.made);
    Onward(s, m, s');
  }

  lemma WithdrawingLeads(s: System, t: Transaction, s': System)
    requires t.Withdrawing? && Commits(s, t, s')
    ensures Leads(s, s')
  {
    var m := Marked(s, t.ids, Superseded);
    Step(s, Withdraw(t.ids), m);
    StatusAllLeads(m, t.order);
    assert s' == m.(db := StatusAll(m.db, t.order), dirty := set o | o in m.dirty && o !in t.order);
    Onward(s, m, s');
  }

  lemma AbandoningLeads(s: System, t: Transaction, s': System)
    requires t.Abandoning? && Commits(s, t, s')
    ensures Leads(s, s')
  {
    var m :| Next(s, Abandon(t.n), m) && s' == RefreshedAll(m, t.order);
    Step(s, Abandon(t.n), m);
    RefreshAllLeads(m, t.order);
    Onward(s, m, s');
  }

  /** Every transaction is a sequence of steps, so all that is proved of runs holds between transactions. */
  lemma CommitLeads(s: System, t: Transaction, s': System)
    requires Revisions(s.db) && Commits(s, t, s')
    ensures Leads(s, s')
  {
    match t
    case Claiming(id) => Step(s, Claim(id), s');
    case Refusing(_) => RefusingLeads(s, t, s');
    case Finishing(_, _) => FinishingLeads(s, t, s');
    case Reconciling(_) => ReconcilingLeads(s, t, s');
    case Repairing(_, _, _, _, _) => RepairingLeads(s, t, s');
    case Cancelling(_, _) => CancellingLeads(s, t, s');
    case Commanding(_, _, _, _) => CommandingLeads(s, t, s');
    case Withdrawing(_, _) => WithdrawingLeads(s, t, s');
    case Abandoning(_, _) => AbandoningLeads(s, t, s');
    case Single(a) => Step(s, a, s');
  }

  datatype History = History(states: seq<System>, commits: seq<Transaction>)

  ghost predicate CommitAt(h: History, i: nat) {
    i < |h.commits| && i + 1 < |h.states| && Commits(h.states[i], h.commits[i], h.states[i + 1])
  }

  /** Any interleaving of whole transactions with what the world does between them. */
  ghost predicate IsHistory(h: History) {
    |h.states| == |h.commits| + 1 && Init(h.states[0]) && forall i: nat :: i < |h.commits| ==> CommitAt(h, i)
  }

  /** Every state of a history is the last state of a run. */
  lemma {:induction false} HistoryIsRun(h: History, i: nat) returns (r: Run)
    requires IsHistory(h) && i < |h.states|
    ensures IsRun(r) && r.states[|r.actions|] == h.states[i]
  {
    if i == 0 {
      r := Run([h.states[0]], []);
    } else {
      var before := HistoryIsRun(h, i - 1);
      Reachable(before, |before.actions|);
      assert CommitAt(h, i - 1);
      CommitLeads(h.states[i - 1], h.commits[i - 1], h.states[i]);
      r := RunOnward(before, h.states[i - 1], h.states[i]);
    }
  }

  /** Between transactions an operation with tasks, none of them running, has the aggregate status of its tasks. */
  lemma CommittedStatus(h: History, i: nat, o: OpId)
    requires IsHistory(h) && i < |h.states| && o in h.states[i].db.ops
    requires HasTask(h.states[i].db, o) && !Has(h.states[i].db, o, Running)
    ensures h.states[i].db.ops[o].status == Aggregate(h.states[i].db, o)
  {
    var r := HistoryIsRun(h, i);
    if i > 0 { assert CommitAt(h, i - 1); }
    OperationStatus(r, |r.actions|, o);
  }

  lemma ClearedKeeps(db: Db, id: TaskId, order: seq<OpId>)
    requires id in db.tasks && db.tasks[id].profile in db.profiles
    ensures var before := Cleared(db, id, order);
      before.tasks.Keys == db.tasks.Keys && before.ops.Keys == db.ops.Keys && db.tasks[id].profile in before.profiles
  {
    RefreshAllKeepsTasks(SetTasks(db, RepairSet(db, id), Superseded), order);
  }
}
