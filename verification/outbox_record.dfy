/** The steps that create rows and names: a recorded operation, a new device, an AWG key rotation. */
module OutboxRecord {
  import opened Tables
  import opened OutboxRun
  import opened OutboxInvariants
  import opened OutboxTables
  import opened OutboxSteps

  /** A recorded row is about one of the profile's devices or about one of its old AWG peers. */
  lemma MadeRowIs(db: Db, p: ProfileId, op: OpId, created: nat, targets: set<(NodeKey, Protocol)>, t: Task)
    requires DistinctNames(db) && p in db.profiles && MadeRow(db, p, op, created, targets, t)
    ensures t.op == op && t.profile == p && t.revision == db.profiles[p].revision && t.status.Awaiting?
    ensures t.node !in db.retirements
    ensures t.slot in db.devices ==> db.devices[t.slot].profile == p && t.name == NameOf(db.devices[t.slot], t.protocol)
    ensures t.slot in db.devices && t.action.Ensure? ==> db.devices[t.slot].status.Active?
    ensures t.slot !in db.devices ==>
              t.slot in db.peers && db.peers[t.slot] == OldPeer(p, t.name) && t.protocol.Awg? && t.action.Delete?
    ensures t.action.Ensure? ==> Granted(db, p, t.node, t.protocol)
    ensures t.slot in db.devices && t.protocol.Xray? && t.action.Ensure? ==> t.secret == db.devices[t.slot].uuid
  {
  }

  ghost predicate Made(db: Db, p: ProfileId, op: OpId, made: map<TaskId, Task>, i: TaskId)
    requires p in db.profiles
  {
    i in made &&
    var t := made[i];
    t.op == op && t.profile == p && t.revision == db.profiles[p].revision && t.status.Awaiting? &&
    t.node !in db.retirements &&
    (if t.slot in db.devices
     then db.devices[t.slot].profile == p && t.name == NameOf(db.devices[t.slot], t.protocol) &&
          (t.action.Ensure? ==> db.devices[t.slot].status.Active?)
     else t.slot in db.peers && db.peers[t.slot] == OldPeer(p, t.name) && t.protocol.Awg? && t.action.Delete?) &&
    (t.action.Ensure? ==> Granted(db, p, t.node, t.protocol)) &&
    (t.slot in db.devices && t.protocol.Xray? && t.action.Ensure? ==> t.secret == db.devices[t.slot].uuid)
  }

  /** What the proofs below need of a recorded operation. */
  ghost predicate Recorded(s: System, p: ProfileId, op: OpId, made: map<TaskId, Task>, s': System) {
    p in s.db.profiles && op !in s.db.ops && made.Keys !! s.db.tasks.Keys && s'.w == s.w &&
    (forall i :: i in s.db.tasks && s.db.tasks[i].profile == p ==> s.db.tasks[i].revision < s.db.profiles[p].revision) &&
    (forall i :: i in made ==> Made(s.db, p, op, made, i)) &&
    (forall i, j :: i in made && j in made && i != j ==> !SameTarget(made[i], made[j])) &&
    s'.db == s.db.(tasks := s'.db.tasks, ops := s'.db.ops) && s'.db.tasks == s.db.tasks + made &&
    op in s'.db.ops && s'.db.ops == s.db.ops[op := s'.db.ops[op]] &&
    s'.db.ops[op].profile == p && s'.db.ops[op].revision == s.db.profiles[p].revision
  }

  lemma RecordedIs(s: System, a: Action, s': System)
    requires DistinctNames(s.db) && a.RecordOp? && Next(s, a, s')
    ensures Recorded(s, a.p, a.op, a.made, s') && s'.dirty == s.dirty
    ensures s'.db.ops[a.op].status == if a.made == map[] then NoTargets else OpAwaiting
  {
    forall i | i in a.made
      ensures Made(s.db, a.p, a.op, a.made, i)
    {
      MadeRowIs(s.db, a.p, a.op, a.created, a.targets, a.made[i]);
    }
  }

  lemma RecordEvolves(s: System, p: ProfileId, op: OpId, made: map<TaskId, Task>, s': System)
    requires Recorded(s, p, op, made, s')
    ensures Evolves(s, s')
  {
  }

  /** Which device or peer slot a row's name belongs to. */
  lemma NewRowName(s: System, p: ProfileId, op: OpId, made: map<TaskId, Task>, s': System, i: TaskId, d: DeviceId)
    requires Names(s.db) && Recorded(s, p, op, made, s') && i in made
    ensures Bears(s'.db, i, d) <==> d == made[i].slot && d in s.db.devices
    ensures About(s'.db, i, d) <==> d == made[i].slot && d in s.db.peers
  {
  }

  /** A row of the same name and protocol already belongs to the profile. */
  lemma NameStaysHome(s: System, p: ProfileId, op: OpId, made: map<TaskId, Task>, s': System, i: TaskId, j: TaskId)
    requires Names(s.db) && Recorded(s, p, op, made, s') && i in made && j in s.db.tasks
    requires made[i].protocol == s.db.tasks[j].protocol && made[i].name == s.db.tasks[j].name
    ensures s.db.tasks[j].profile == p && s.db.tasks[j].revision < made[i].revision
  {
    assert Made(s.db, p, op, made, i);
    var d := made[i].slot;
    if d in s.db.devices {
      assert Bears(s.db, j, d);
      assert DeviceRow(s.db, j);
    } else {
      assert About(s.db, j, d);
    }
  }

  lemma RecordUnique(s: System, p: ProfileId, op: OpId, made: map<TaskId, Task>, s': System)
    requires Unique(s.db) && Names(s.db) && Recorded(s, p, op, made, s')
    ensures Unique(s'.db)
  {
    forall i, j | i in s'.db.tasks && j in s'.db.tasks && KeyOf(s'.db.tasks[i]) == KeyOf(s'.db.tasks[j])
      ensures s'.db.tasks[i].profile == s'.db.tasks[j].profile
      ensures i != j ==> s'.db.tasks[i].revision != s'.db.tasks[j].revision
    {
      if i in made && j in made {
        assert Made(s.db, p, op, made, i) && Made(s.db, p, op, made, j);
      } else if i in made {
        assert Made(s.db, p, op, made, i);
        NameStaysHome(s, p, op, made, s', i, j);
      } else if j in made {
        assert Made(s.db, p, op, made, j);
        NameStaysHome(s, p, op, made, s', j, i);
      }
    }
  }

  lemma RecordRevisions(s: System, p: ProfileId, op: OpId, made: map<TaskId, Task>, s': System)
    requires Revisions(s.db) && Recorded(s, p, op, made, s')
    ensures Revisions(s'.db)
  {
  }

  lemma OldRelations(s: System, p: ProfileId, op: OpId, made: map<TaskId, Task>, s': System, i: TaskId, d: DeviceId)
    requires Recorded(s, p, op, made, s') && i in s.db.tasks
    ensures s'.db.tasks[i] == s.db.tasks[i]
    ensures Bears(s'.db, i, d) <==> Bears(s.db, i, d)
    ensures About(s'.db, i, d) <==> About(s.db, i, d)
    ensures InOldSlot(s'.db, i, d) <==> InOldSlot(s.db, i, d)
    ensures Present(s'.db, i) ==> Present(s.db, i) && s.db.tasks[i].profile != p
  {
  }

  lemma RecordDeviceRows(s: System, p: ProfileId, op: OpId, made: map<TaskId, Task>, s': System)
    requires Names(s.db) && Recorded(s, p, op, made, s')
    ensures DeviceRows(s'.db)
  {
    forall i, d | Bears(s'.db, i, d)
      ensures s'.db.tasks[i].slot == d
    {
      if i in made { NewRowName(s, p, op, made, s', i, d); } else { OldRelations(s, p, op, made, s', i, d); }
    }
    forall i | i in s'.db.tasks
      ensures DeviceRow(s'.db, i)
    {
      if i in made {
        assert Made(s.db, p, op, made, i);
      } else {
        OldRelations(s, p, op, made, s', i, s.db.tasks[i].slot);
        assert DeviceRow(s.db, i);
      }
    }
  }

  lemma RecordFollows(s: System, p: ProfileId, op: OpId, made: map<TaskId, Task>, s': System,
                      i: TaskId, j: TaskId, d: DeviceId)
    requires Names(s.db) && Recorded(s, p, op, made, s') && Bears(s'.db, i, d) && Follows(s'.db, i, j)
    ensures Bears(s'.db, j, d)
  {
    if i in made { NewRowName(s, p, op, made, s', i, d); assert Made(s.db, p, op, made, i); }
    else { OldRelations(s, p, op, made, s', i, d); }
    assert s'.db.tasks[j].slot == d;
    if j in made {
      NewRowName(s, p, op, made, s', j, d);
    } else {
      OldRelations(s, p, op, made, s', j, d);
      assert DeviceRow(s.db, j);
      assert i !in made;
      assert Follows(s.db, i, j);
    }
  }

  lemma RecordRenamed(s: System, p: ProfileId, op: OpId, made: map<TaskId, Task>, s': System)
    requires Names(s.db) && Recorded(s, p, op, made, s')
    ensures RenamedOnce(s'.db)
  {
    forall i, j, d | Bears(s'.db, i, d) && Follows(s'.db, i, j)
      ensures Bears(s'.db, j, d)
    {
      RecordFollows(s, p, op, made, s', i, j, d);
    }
    forall j | Present(s'.db, j) && s'.db.tasks[j].slot in s'.db.devices
      ensures Bears(s'.db, j, s'.db.tasks[j].slot)
    {
      if j in made { NewRowName(s, p, op, made, s', j, made[j].slot); }
      else { OldRelations(s, p, op, made, s', j, s.db.tasks[j].slot); }
    }
  }

  lemma RecordOldPeerRow(s: System, p: ProfileId, op: OpId, made: map<TaskId, Task>, s': System, i: TaskId, r: DeviceId)
    requires Names(s.db) && Recorded(s, p, op, made, s') && i in s'.db.tasks
    ensures InOldSlot(s'.db, i, r) ==> About(s'.db, i, r) && s'.db.tasks[i].action.Delete?
    ensures About(s'.db, i, r) ==> s'.db.tasks[i].profile == s'.db.peers[r].profile
    ensures About(s'.db, i, r) && Present(s'.db, i) ==> s'.db.tasks[i].slot == r
  {
    if i in made {
      assert Made(s.db, p, op, made, i);
      NewRowName(s, p, op, made, s', i, r);
    } else {
      OldRelations(s, p, op, made, s', i, r);
    }
  }

  lemma RecordOldPeerOrder(s: System, p: ProfileId, op: OpId, made: map<TaskId, Task>, s': System,
                           i: TaskId, j: TaskId, r: DeviceId)
    requires Names(s.db) && Recorded(s, p, op, made, s')
    requires About(s'.db, i, r) && InOldSlot(s'.db, j, r) && s'.db.tasks[i].slot != r
    ensures s'.db.tasks[i].revision < s'.db.tasks[j].revision
  {
    if i in made { NewRowName(s, p, op, made, s', i, r); }
    OldRelations(s, p, op, made, s', i, r);
    if j in made { assert Made(s.db, p, op, made, j); } else { OldRelations(s, p, op, made, s', j, r); }
  }

  lemma RecordSecrets(s: System, p: ProfileId, op: OpId, made: map<TaskId, Task>, s': System)
    requires Secrets(s.db) && Recorded(s, p, op, made, s')
    ensures Secrets(s'.db)
  {
    forall j | j in s'.db.tasks
      ensures CurrentSecret(s'.db, j)
    {
      if j in made {
        assert Made(s.db, p, op, made, j);
      } else {
        OldRelations(s, p, op, made, s', j, 0);
        assert CurrentSecret(s.db, j);
      }
    }
  }

  lemma RecordNames(s: System, p: ProfileId, op: OpId, made: map<TaskId, Task>, s': System)
    requires Names(s.db) && Recorded(s, p, op, made, s')
    ensures Names(s'.db)
  {
    RecordSecrets(s, p, op, made, s');
    RecordDeviceRows(s, p, op, made, s');
    RecordRenamed(s, p, op, made, s');
    forall i, r | i in s'.db.tasks
      ensures InOldSlot(s'.db, i, r) ==> About(s'.db, i, r) && s'.db.tasks[i].action.Delete?
      ensures About(s'.db, i, r) ==> s'.db.tasks[i].profile == s'.db.peers[r].profile
      ensures About(s'.db, i, r) && Present(s'.db, i) ==> s'.db.tasks[i].slot == r
    {
      RecordOldPeerRow(s, p, op, made, s', i, r);
    }
    forall i, j, r | About(s'.db, i, r) && InOldSlot(s'.db, j, r) && s'.db.tasks[i].slot != r
      ensures s'.db.tasks[i].revision < s'.db.tasks[j].revision
    {
      RecordOldPeerOrder(s, p, op, made, s', i, j, r);
    }
  }

  lemma RecordDeletions(s: System, p: ProfileId, op: OpId, made: map<TaskId, Task>, s': System)
    requires DeletionsRevoke(s.db) && Recorded(s, p, op, made, s')
    ensures DeletionsRevoke(s'.db)
  {
  }

  lemma RecordKeeps(s: System, p: ProfileId, op: OpId, made: map<TaskId, Task>, s': System)
    requires Rows(s) && Recorded(s, p, op, made, s')
    ensures Rows(s')
  {
    RecordEvolves(s, p, op, made, s');
    RecordUnique(s, p, op, made, s');
    KeepsCore(s, s');
    RecordRevisions(s, p, op, made, s');
    RecordNames(s, p, op, made, s');
    RecordDeletions(s, p, op, made, s');
  }

  // ----- New names -----

  /** Tasks and operations stay; device and peer rows may change names. */
  ghost predicate Renames(s: System, s': System) {
    s'.w == s.w && s'.db.tasks == s.db.tasks && s'.db.ops == s.db.ops && s'.db.retirements == s.db.retirements &&
    s'.db.nodes == s.db.nodes && s'.db.deletions == s.db.deletions && s'.db.grants == s.db.grants && Grows(s.db, s'.db)
  }

  lemma RenamesKeep(s: System, s': System)
    requires Rows(s) && Renames(s, s') && Names(s'.db)
    ensures Rows(s')
  {
    StillEvolves(s, s');
    KeepsCore(s, s');
    FrameRevisions(s.db, s'.db);
    forall p | p in s'.db.grants && p in s.db.deletions
      ensures s'.db.grants[p] == {}
    {
      assert DeletionRevokes(s.db, p);
    }
    FrameDeletions(s.db, s'.db);
  }

  lemma AddRelations(s: System, d: DeviceId, row: Device, s': System, i: TaskId, e: DeviceId)
    requires AddDeviceRule(s, d, row, s')
    ensures Bears(s'.db, i, e) <==> Bears(s.db, i, e)
    ensures i in s.db.tasks ==> s.db.tasks[i].slot != d
    ensures About(s'.db, i, e) <==> About(s.db, i, e)
    ensures InOldSlot(s'.db, i, e) <==> InOldSlot(s.db, i, e)
    ensures Present(s'.db, i) <==> Present(s.db, i)
  {
  }

  lemma AddDeviceNames(s: System, d: DeviceId, row: Device, s': System)
    requires Names(s.db) && AddDeviceRule(s, d, row, s')
    ensures Names(s'.db)
  {
    forall i, e
      ensures Bears(s'.db, i, e) <==> Bears(s.db, i, e)
      ensures About(s'.db, i, e) <==> About(s.db, i, e)
      ensures InOldSlot(s'.db, i, e) <==> InOldSlot(s.db, i, e)
      ensures Present(s'.db, i) <==> Present(s.db, i)
    {
      AddRelations(s, d, row, s', i, e);
    }
    forall i | i in s'.db.tasks
      ensures DeviceRow(s'.db, i)
    {
      AddRelations(s, d, row, s', i, d);
      assert DeviceRow(s.db, i);
    }
    forall j | j in s'.db.tasks
      ensures CurrentSecret(s'.db, j)
    {
      AddRelations(s, d, row, s', j, d);
      assert CurrentSecret(s.db, j);
    }
    assert forall i, j :: Follows(s'.db, i, j) <==> Follows(s.db, i, j);
  }

  lemma RotateRelations(s: System, d: DeviceId, slot: DeviceId, name: Name, s': System, i: TaskId, e: DeviceId)
    requires Revisions(s.db) && RotateAwgRule(s, d, slot, name, s') && i in s.db.tasks
    ensures Bears(s'.db, i, e) ==> Bears(s.db, i, e)
    ensures Bears(s.db, i, e) && (e != d || s.db.tasks[i].protocol.Xray?) ==> Bears(s'.db, i, e)
    ensures Bears(s'.db, i, d) ==> s.db.tasks[i].protocol.Xray?
    ensures About(s'.db, i, slot) ==> Bears(s.db, i, d) && s.db.tasks[i].protocol.Awg?
    ensures e != slot ==> (About(s'.db, i, e) <==> About(s.db, i, e))
    ensures e != slot ==> (InOldSlot(s'.db, i, e) <==> InOldSlot(s.db, i, e))
    ensures !InOldSlot(s'.db, i, slot)
    ensures Present(s'.db, i) ==> Present(s.db, i) && s.db.tasks[i].profile != s.db.devices[d].profile
  {
  }

  lemma RotateDistinct(s: System, d: DeviceId, slot: DeviceId, name: Name, s': System)
    requires DistinctNames(s.db) && Homes(s.db) && RotateAwgRule(s, d, slot, name, s')
    ensures DistinctNames(s'.db) && Homes(s'.db)
  {
  }

  lemma RotateDeviceRows(s: System, d: DeviceId, slot: DeviceId, name: Name, s': System)
    requires Revisions(s.db) && Names(s.db) && RotateAwgRule(s, d, slot, name, s')
    ensures DeviceRows(s'.db) && RenamedOnce(s'.db)
  {
    forall i, e | Bears(s'.db, i, e)
      ensures s'.db.tasks[i].slot == e
    {
      RotateRelations(s, d, slot, name, s', i, e);
    }
    forall i | i in s'.db.tasks
      ensures DeviceRow(s'.db, i)
    {
      RotateRelations(s, d, slot, name, s', i, s.db.tasks[i].slot);
      assert DeviceRow(s.db, i);
    }
    forall i, j, e | Bears(s'.db, i, e) && Follows(s'.db, i, j)
      ensures Bears(s'.db, j, e)
    {
      RotateRelations(s, d, slot, name, s', i, e);
      RotateRelations(s, d, slot, name, s', j, e);
      assert Follows(s.db, i, j);
    }
    forall j | Present(s'.db, j) && s'.db.tasks[j].slot in s'.db.devices
      ensures Bears(s'.db, j, s'.db.tasks[j].slot)
    {
      RotateRelations(s, d, slot, name, s', j, s.db.tasks[j].slot);
      assert DeviceRow(s.db, j);
    }
  }

  lemma RotateOldPeers(s: System, d: DeviceId, slot: DeviceId, name: Name, s': System)
    requires Revisions(s.db) && Names(s.db) && RotateAwgRule(s, d, slot, name, s')
    ensures OldPeerRows(s'.db)
  {
    forall i, r | i in s'.db.tasks
      ensures InOldSlot(s'.db, i, r) ==> About(s'.db, i, r) && s'.db.tasks[i].action.Delete?
      ensures About(s'.db, i, r) ==> s'.db.tasks[i].profile == s'.db.peers[r].profile
      ensures About(s'.db, i, r) && Present(s'.db, i) ==> s'.db.tasks[i].slot == r
    {
      RotateRelations(s, d, slot, name, s', i, r);
      assert DeviceRow(s.db, i);
    }
    forall i, j, r | About(s'.db, i, r) && InOldSlot(s'.db, j, r) && s'.db.tasks[i].slot != r
      ensures s'.db.tasks[i].revision < s'.db.tasks[j].revision
    {
      RotateRelations(s, d, slot, name, s', i, r);
      RotateRelations(s, d, slot, name, s', j, r);
    }
  }

  lemma AddDeviceKeeps(s: System, d: DeviceId, row: Device, s': System)
    requires Rows(s) && AddDeviceRule(s, d, row, s')
    ensures Rows(s')
  {
    AddDeviceNames(s, d, row, s');
    assert Renames(s, s');
    RenamesKeep(s, s');
  }

  lemma RotateSecrets(s: System, d: DeviceId, slot: DeviceId, name: Name, s': System)
    requires Revisions(s.db) && Names(s.db) && RotateAwgRule(s, d, slot, name, s')
    ensures Secrets(s'.db)
  {
    forall j | j in s'.db.tasks
      ensures CurrentSecret(s'.db, j)
    {
      RotateRelations(s, d, slot, name, s', j, d);
      assert CurrentSecret(s.db, j);
    }
  }

  lemma RotateKeeps(s: System, d: DeviceId, slot: DeviceId, name: Name, s': System)
    requires Rows(s) && RotateAwgRule(s, d, slot, name, s')
    ensures Rows(s')
  {
    RotateDistinct(s, d, slot, name, s');
    RotateDeviceRows(s, d, slot, name, s');
    RotateOldPeers(s, d, slot, name, s');
    RotateSecrets(s, d, slot, name, s');
    assert Renames(s, s');
    RenamesKeep(s, s');
  }
}
