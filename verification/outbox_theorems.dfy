/** Operation states, and the invariant over whole runs. */
module OutboxTheorems {
  import opened Tables
  import opened OutboxRun
  import opened OutboxInvariants
  import opened OutboxTables
  import opened OutboxSteps
  import opened OutboxRecord

  predicate SameTasksOf(db: Db, db': Db, o: OpId) {
    (forall i :: i in db.tasks && db.tasks[i].op == o ==> i in db'.tasks && db'.tasks[i] == db.tasks[i]) &&
    (forall i :: i in db'.tasks && db'.tasks[i].op == o ==> i in db.tasks && db'.tasks[i] == db.tasks[i])
  }

  lemma SameState(db: Db, db': Db, o: OpId)
    requires SameTasksOf(db, db', o) && o in db.ops && o in db'.ops && db.ops[o].status == db'.ops[o].status
    ensures Accurate(db, o) <==> Accurate(db', o)
    ensures AllSucceeded(db, o) <==> AllSucceeded(db', o)
  {
  }

  /** An operation with unfinished work is not reported done. */
  lemma UnfinishedNotDone(s: System, i: TaskId)
    requires Revisions(s.db) && OpStates(s) && i in s.db.tasks && !s.db.tasks[i].status.Succeeded?
    ensures s.db.tasks[i].op in s.db.ops && !Done(s.db.ops[s.db.tasks[i].op].status)
  {
  }

  lemma SetsKeepStates(s: System, s': System, ids: set<TaskId>)
    requires Revisions(s.db) && OpStates(s) && s'.dirty == s.dirty + OpsOf(s.db, ids) && s'.db.ops == s.db.ops
    requires SameRows(s.db, s'.db) && forall i :: i in s.db.tasks && i !in ids ==> s'.db.tasks[i] == s.db.tasks[i]
    requires forall i :: i in ids && i in s.db.tasks ==> !s.db.tasks[i].status.Succeeded?
    ensures OpStates(s')
  {
    forall o | o in s'.db.ops
      ensures OpState(s', o)
    {
      assert OpState(s, o);
      if o in OpsOf(s.db, ids) {
        var i :| i in ids && i in s.db.tasks && s.db.tasks[i].op == o;
        UnfinishedNotDone(s, i);
      } else {
        forall i | i in s.db.tasks && (s.db.tasks[i].op == o || s'.db.tasks[i].op == o)
          ensures s'.db.tasks[i] == s.db.tasks[i]
        {
          assert SameRow(s.db.tasks[i], s'.db.tasks[i]);
          assert i !in ids;
        }
        SameState(s.db, s'.db, o);
      }
    }
  }

  lemma ClaimKeepsStates(s: System, id: TaskId, s': System)
    requires Revisions(s.db) && OpStates(s) && ClaimRule(s, id, s')
    ensures OpStates(s')
  {
    assert RevisionRow(s.db, id);
    forall o | o in s'.db.ops
      ensures OpState(s', o)
    {
      assert OpState(s, o);
      if o == s.db.tasks[id].op {
        assert s'.db.tasks[id].op == o && s'.db.tasks[id].status.Running?;
        assert Has(s'.db, o, Running) && HasTask(s'.db, o);
      } else {
        SameState(s.db, s'.db, o);
      }
    }
  }

  lemma RecoverKeepsState(s: System, s': System, o: OpId)
    requires OpStates(s) && s'.db == RecoverAll(s.db) && s'.dirty == s.dirty && o in s.db.ops
    ensures OpState(s', o)
  {
    assert OpState(s, o);
    if Has(s.db, o, Running) {
      var i :| i in s.db.tasks && s.db.tasks[i].op == o && s.db.tasks[i].status.Running?;
      assert s'.db.tasks[i].op == o && s'.db.tasks[i].status.Blocked?;
      assert Has(s'.db, o, Blocked) && HasTask(s'.db, o);
      assert forall j :: j in s'.db.tasks ==> !s'.db.tasks[j].status.Running?;
      assert HasTask(s.db, o);
    } else {
      forall i | i in s.db.tasks && s.db.tasks[i].op == o
        ensures !s.db.tasks[i].status.Running?
      {
        assert !Has(s.db, o, Running);
      }
      assert SameTasksOf(s.db, s'.db, o);
      if o !in s.dirty {
        assert !s.db.ops[o].status.OpRunning?;
        SameState(s.db, s'.db, o);
      } else if Done(s.db.ops[o].status) {
        SameState(s.db, s'.db, o);
      }
    }
  }

  lemma RecordedState(s: System, p: ProfileId, op: OpId, made: map<TaskId, Task>, s': System)
    requires Revisions(s.db) && Recorded(s, p, op, made, s') && s'.dirty == s.dirty
    requires s'.db.ops[op].status == if made == map[] then NoTargets else OpAwaiting
    ensures OpState(s', op)
  {
  }

  lemma RecordKeepsState(s: System, p: ProfileId, op: OpId, made: map<TaskId, Task>, s': System, o: OpId)
    requires OpStates(s) && Recorded(s, p, op, made, s') && s'.dirty == s.dirty && o in s.db.ops
    ensures OpState(s', o)
  {
    assert OpState(s, o);
    forall i | i in made
      ensures made[i].op != o
    {
      assert Made(s.db, p, op, made, i);
    }
    SameState(s.db, s'.db, o);
  }

  lemma RecordKeepsStates(s: System, p: ProfileId, op: OpId, made: map<TaskId, Task>, s': System)
    requires Revisions(s.db) && OpStates(s) && Recorded(s, p, op, made, s') && s'.dirty == s.dirty
    requires s'.db.ops[op].status == if made == map[] then NoTargets else OpAwaiting
    ensures OpStates(s')
  {
    forall o | o in s'.db.ops
      ensures OpState(s', o)
    {
      if o == op { RecordedState(s, p, op, made, s'); } else { RecordKeepsState(s, p, op, made, s', o); }
    }
  }

  lemma RefreshKeepsStates(s: System, op: OpId, s': System)
    requires OpStates(s) && s' == s.(db := RefreshStatus(s.db, op), dirty := s.dirty - {op})
    ensures OpStates(s')
  {
  }

  lemma QuietKeepsStates(s: System, s': System)
    requires OpStates(s) && s'.db.tasks == s.db.tasks && s'.db.ops == s.db.ops && s'.dirty == s.dirty
    ensures OpStates(s')
  {
  }

  predicate MovesRows(a: Action) {
    a.Refuse? || a.Finish? || a.Reconcile? || a.Repair? || a.ForceCancel? || a.Withdraw? || a.Abandon?
  }

  /** The rows a task step changes, all of them unfinished before. */
  ghost function Changed(s: System, a: Action): set<TaskId>
    requires MovesRows(a) && ((a.Repair? || a.ForceCancel? || a.Finish?) ==> a.id in s.db.tasks)
  {
    match a
    case Refuse(id) => {id}
    case Finish(id, ok) => if s.db.tasks[id].status.Running? then {id} else {}
    case Reconcile(id) => {id}
    case Repair(id) => RepairSet(s.db, id)
    case ForceCancel(id) => {id}
    case Withdraw(ids) => ids
    case Abandon(n) => AbandonSet(s.db, n)
  }

  lemma ChangedRows(s: System, a: Action, s': System)
    requires MovesRows(a) && Next(s, a, s')
    ensures s'.dirty == s.dirty + OpsOf(s.db, Changed(s, a)) && s'.db.ops == s.db.ops
    ensures s'.db.tasks.Keys == s.db.tasks.Keys
    ensures forall i :: i in s.db.tasks && i !in Changed(s, a) ==> s'.db.tasks[i] == s.db.tasks[i]
    ensures forall i :: i in Changed(s, a) && i in s.db.tasks ==> !s.db.tasks[i].status.Succeeded?
  {
  }

  lemma TaskStepKeepsStates(s: System, a: Action, s': System)
    requires Revisions(s.db) && OpStates(s) && SameRows(s.db, s'.db) && OnTasks(a) && Next(s, a, s')
    ensures OpStates(s')
  {
    if a.Claim? {
      ClaimKeepsStates(s, a.id, s');
    } else if a.Recover? {
      forall o | o in s'.db.ops
        ensures OpState(s', o)
      {
        RecoverKeepsState(s, s', o);
      }
    } else if MovesRows(a) {
      ChangedRows(s, a, s');
      SetsKeepStates(s, s', Changed(s, a));
    } else {
      UntouchedRows(s, a, s');
      QuietKeepsStates(s, s');
    }
  }

  lemma UntouchedRows(s: System, a: Action, s': System)
    requires (a.Dispatch? || a.Drop? || a.Fence? || a.RetireNode? || (!OnTasks(a) && !a.RecordOp? && !a.RefreshOp?))
    requires Next(s, a, s')
    ensures s'.db.tasks == s.db.tasks && s'.db.ops == s.db.ops && s'.dirty == s.dirty
  {
  }

  // ----- The invariant over runs -----

  lemma EffectKeepsRows(s: System, a: Action, s': System)
    requires Rows(s) && a.Effect? && Next(s, a, s')
    ensures Rows(s')
  {
    EffectKeepsCore(s, a.id, s');
    assert s'.db == s.db;
  }

  lemma StepKeepsRows(s: System, a: Action, s': System)
    requires Rows(s) && Next(s, a, s')
    ensures Rows(s')
  {
    if OnTasks(a) { TaskSteps(s, a, s'); TaskStepKeeps(s, s'); }
    else if OnOthers(a) { Asides(s, a, s'); AsideKeeps(s, s'); }
    else if a.RecordOp? { RecordedIs(s, a, s'); RecordKeeps(s, a.p, a.op, a.made, s'); }
    else if a.AddDevice? { AddDeviceKeeps(s, a.d, a.row, s'); }
    else if a.RotateAwg? { RotateKeeps(s, a.d, a.slot, a.name, s'); }
    else if a.BeginDeletion? { BeginKeeps(s, a.p, s'); }
    else if a.PointDeletion? { PointKeeps(s, a.p, a.op, s'); }
    else { EffectKeepsRows(s, a, s'); }
  }

  lemma StepKeepsStates(s: System, a: Action, s': System)
    requires Rows(s) && OpStates(s) && Next(s, a, s')
    ensures OpStates(s')
  {
    if OnTasks(a) { TaskSteps(s, a, s'); TaskStepKeepsStates(s, a, s'); }
    else if a.RefreshOp? { RefreshKeepsStates(s, a.op, s'); }
    else if a.RecordOp? { RecordedIs(s, a, s'); RecordKeepsStates(s, a.p, a.op, a.made, s'); }
    else { UntouchedRows(s, a, s'); QuietKeepsStates(s, s'); }
  }

  lemma StepKeeps(s: System, a: Action, s': System)
    requires Inv(s) && Next(s, a, s')
    ensures Inv(s')
  {
    StepKeepsRows(s, a, s');
    StepKeepsStates(s, a, s');
  }

  lemma InitHolds(s: System)
    requires Init(s)
    ensures Inv(s)
  {
  }

  lemma InvAt(r: Run, i: nat)
    requires i > 0 && StepAt(r, i - 1) && Inv(r.states[i - 1])
    ensures Inv(r.states[i])
  {
    StepKeeps(r.states[i - 1], r.actions[i - 1], r.states[i]);
  }

  /** The invariant holds in every state of every run. */
  lemma {:induction false} Reachable(r: Run, i: nat)
    requires IsRun(r) && i < |r.states|
    ensures Inv(r.states[i])
  {
    if i == 0 {
      InitHolds(r.states[0]);
    } else {
      Reachable(r, i - 1);
      assert StepAt(r, i - 1);
      InvAt(r, i);
    }
  }

  // ----- What a run does to rows -----

  /** Rows are never lost and finished rows never change. */
  ghost predicate Persists(db: Db, db': Db) {
    forall i :: i in db.tasks ==>
      i in db'.tasks && SameRow(db.tasks[i], db'.tasks[i]) &&
      (Terminal(db.tasks[i].status) ==> db'.tasks[i].status == db.tasks[i].status)
  }

  lemma UntouchedWorld(s: System, a: Action, s': System)
    requires Next(s, a, s') && !OnTasks(a)
    ensures s'.db.retirements == s.db.retirements
    ensures !a.RecordOp? && !a.Effect? ==> s'.db.tasks == s.db.tasks && s'.w == s.w
  {
  }

  lemma StepEvolves(s: System, a: Action, s': System)
    requires Inv(s) && Next(s, a, s') && !a.Effect?
    ensures Evolves(s, s')
  {
    if OnTasks(a) { TaskSteps(s, a, s'); }
    else if a.RecordOp? { RecordedIs(s, a, s'); RecordEvolves(s, a.p, a.op, a.made, s'); }
    else { UntouchedWorld(s, a, s'); StillEvolves(s, s'); }
  }

  /** Every step keeps the rows there are and adds only newer ones. */
  lemma RowsEvolve(s: System, a: Action, s': System)
    requires Inv(s) && Next(s, a, s')
    ensures OldRows(s, s') && NewRows(s, s')
  {
    if a.Effect? { EffectRows(s, a.id, s'); } else { StepEvolves(s, a, s'); }
  }

  lemma EffectRows(s: System, id: TaskId, s': System)
    requires EffectRule(s, id, s')
    ensures OldRows(s, s') && NewRows(s, s')
  {
    assert s'.db == s.db;
  }

  lemma OldRowsPersist(s: System, s': System)
    requires OldRows(s, s')
    ensures Persists(s.db, s'.db)
  {
    forall i | i in s.db.tasks
      ensures i in s'.db.tasks && SameRow(s.db.tasks[i], s'.db.tasks[i])
      ensures Terminal(s.db.tasks[i].status) ==> s'.db.tasks[i].status == s.db.tasks[i].status
    {
      assert Moves(s, s', i);
    }
  }

  lemma StepPersists(s: System, a: Action, s': System)
    requires Inv(s) && Next(s, a, s')
    ensures Persists(s.db, s'.db)
  {
    RowsEvolve(s, a, s');
    OldRowsPersist(s, s');
  }

  lemma PersistsFurther(a: Db, b: Db, c: Db)
    requires Persists(a, b) && Persists(b, c)
    ensures Persists(a, c)
  {
  }

  lemma PersistsAt(r: Run, i: nat)
    requires IsRun(r) && 0 < i < |r.states|
    ensures Persists(r.states[i - 1].db, r.states[i].db)
  {
    Reachable(r, i - 1);
    assert StepAt(r, i - 1);
    StepPersists(r.states[i - 1], r.actions[i - 1], r.states[i]);
  }

  lemma {:induction false} RunPersists(r: Run, i: nat, j: nat)
    requires IsRun(r) && i <= j < |r.states|
    ensures Persists(r.states[i].db, r.states[j].db)
    decreases j
  {
    if i == j {
    } else {
      RunPersists(r, i, j - 1);
      PersistsAt(r, j);
      PersistsFurther(r.states[i].db, r.states[j - 1].db, r.states[j].db);
    }
  }

  // ----- Main results about dispatch -----

  /** At most one operation task is running or blocked on a node, in every state of every run. */
  lemma OneCommandPerNode(r: Run, i: nat, a: TaskId, b: TaskId)
    requires IsRun(r) && i < |r.states| && a in r.states[i].db.tasks && b in r.states[i].db.tasks
    requires Occupies(r.states[i].db.tasks[a].status) && Occupies(r.states[i].db.tasks[b].status)
    requires r.states[i].db.tasks[a].node == r.states[i].db.tasks[b].node
    ensures a == b
  {
    Reachable(r, i);
  }

  lemma LogsAt(r: Run, i: nat)
    requires StepAt(r, i)
    ensures r.states[i].w.dispatched <= r.states[i + 1].w.dispatched
  {
  }

  lemma {:induction false} LogGrows(r: Run, i: nat, j: nat)
    requires IsRun(r) && i <= j < |r.states|
    ensures r.states[i].w.dispatched <= r.states[j].w.dispatched
    decreases j
  {
    if i == j {
    } else {
      LogGrows(r, i, j - 1);
      LogsAt(r, j - 1);
    }
  }

  /** Two calls to the driver at different times are for different tasks, and two calls on one line
      are in revision order. */
  lemma DispatchedOnceInOrder(r: Run, i: nat, j: nat)
    requires IsRun(r) && i < j < |r.actions| && r.actions[i].Dispatch? && r.actions[j].Dispatch?
    ensures r.actions[i].id != r.actions[j].id
    ensures !Overtakes(r.states[j].db, r.actions[j].id, r.actions[i].id)
  {
    var a, b := r.actions[i].id, r.actions[j].id;
    LogGrows(r, i + 1, j);
    Reachable(r, j);
    var s := r.states[j];
    assert StepAt(r, i) && StepAt(r, j);
    assert s.w.dispatched[|r.states[i].w.dispatched|] == a;
    assert a in s.w.dispatched && b in s.w.held;
    assert Sent(s.w, a);
  }

  /** When a task is claimed, every older task of its profile, node and protocol has finished, and
      keeps that outcome for the rest of the run. */
  lemma ClaimedInOrder(r: Run, i: nat, j: nat, e: TaskId)
    requires IsRun(r) && i < |r.actions| && r.actions[i].Claim? && i <= j < |r.states|
    requires Overtakes(r.states[i].db, e, r.actions[i].id)
    ensures Terminal(r.states[i].db.tasks[e].status)
    ensures e in r.states[j].db.tasks && r.states[j].db.tasks[e].status == r.states[i].db.tasks[e].status
  {
    var s := r.states[i];
    assert StepAt(r, i);
    assert !HeldBackBy(s.db, s.db.tasks[r.actions[i].id], e);
    RunPersists(r, i, j);
  }

  /** Between refreshes, an operation's status is the aggregate of its tasks; while one of them runs it may
      read `running` instead. Whatever its status, a finished one has nothing unfinished. */
  lemma OperationStatus(r: Run, i: nat, o: OpId)
    requires IsRun(r) && i < |r.states| && o in r.states[i].db.ops
    ensures var s := r.states[i];
      o !in s.dirty && HasTask(s.db, o) && !Has(s.db, o, Running) ==> s.db.ops[o].status == Aggregate(s.db, o)
    ensures var s := r.states[i]; Done(s.db.ops[o].status) ==> AllSucceeded(s.db, o)
  {
    Reachable(r, i);
    assert OpState(r.states[i], o);
  }
}
