/** What every step keeps about the rows themselves: revisions, peer names, deletions, operation states. */
module OutboxTables {
  import opened Tables
  import opened OutboxRun
  import opened OutboxInvariants

  ghost predicate RevisionRow(db: Db, i: TaskId)
    requires i in db.tasks
  {
    var t := db.tasks[i];
    t.profile in db.profiles && t.revision <= db.profiles[t.profile].revision &&
    t.op in db.ops && db.ops[t.op].profile == t.profile && db.ops[t.op].revision == t.revision
  }

  ghost predicate RevisionOp(db: Db, o: OpId)
    requires o in db.ops
  {
    db.ops[o].profile in db.profiles && db.ops[o].revision <= db.profiles[db.ops[o].profile].revision
  }

  ghost predicate Revisions(db: Db) {
    (forall i :: i in db.tasks ==> RevisionRow(db, i)) && (forall o :: o in db.ops ==> RevisionOp(db, o))
  }

  /** Runtime names are never shared. */
  ghost predicate DistinctNames(db: Db) {
    (forall d, e :: d in db.devices && e in db.devices && d != e ==>
       db.devices[d].awg != db.devices[e].awg && db.devices[d].xray != db.devices[e].xray) &&
    (forall s, r :: s in db.peers && r in db.peers && s != r ==> db.peers[s].name != db.peers[r].name) &&
    (forall d, s :: d in db.devices && s in db.peers ==> d != s && db.devices[d].awg != db.peers[s].name)
  }

  /** Row i carries the current name of device d. */
  predicate Bears(db: Db, i: TaskId, d: DeviceId) {
    i in db.tasks && d in db.devices && db.tasks[i].name == NameOf(db.devices[d], db.tasks[i].protocol)
  }

  /** A device's rows are its profile's, and its Xray name never changes. */
  ghost predicate DeviceRow(db: Db, i: TaskId)
    requires i in db.tasks
  {
    db.tasks[i].slot in db.devices ==>
      db.tasks[i].profile == db.devices[db.tasks[i].slot].profile &&
      (db.tasks[i].protocol.Xray? ==> Bears(db, i, db.tasks[i].slot))
  }

  ghost predicate DeviceRows(db: Db) {
    (forall i, d :: Bears(db, i, d) ==> db.tasks[i].slot == d) && (forall i :: i in db.tasks ==> DeviceRow(db, i))
  }

  /** Rows i and j belong to one device or peer slot on one protocol, j no older than i. */
  predicate Follows(db: Db, i: TaskId, j: TaskId) {
    i in db.tasks && j in db.tasks && db.tasks[i].slot == db.tasks[j].slot &&
    db.tasks[i].protocol == db.tasks[j].protocol && db.tasks[i].revision <= db.tasks[j].revision
  }

  /** Row j was recorded at its profile's present revision. */
  predicate Present(db: Db, j: TaskId) {
    j in db.tasks && db.tasks[j].profile in db.profiles && db.tasks[j].revision == db.profiles[db.tasks[j].profile].revision
  }

  /** A device's rows since its last rotation, and those at the present revision, carry its current name. */
  ghost predicate RenamedOnce(db: Db) {
    (forall i, j, d :: Bears(db, i, d) && Follows(db, i, j) ==> Bears(db, j, d)) &&
    (forall j :: Present(db, j) && db.tasks[j].slot in db.devices ==> Bears(db, j, db.tasks[j].slot))
  }

  /** Row i is about the peer that slot s has to remove. */
  predicate About(db: Db, i: TaskId, s: DeviceId) {
    i in db.tasks && s in db.peers && db.tasks[i].protocol.Awg? && db.tasks[i].name == db.peers[s].name
  }

  predicate InOldSlot(db: Db, i: TaskId, s: DeviceId) { i in db.tasks && s in db.peers && db.tasks[i].slot == s }

  /** Rows about a peer left by a rotation: the device's own, all older, then removals under the slot. */
  ghost predicate OldPeerRows(db: Db) {
    (forall i, s :: InOldSlot(db, i, s) ==> About(db, i, s) && db.tasks[i].action.Delete?) &&
    (forall i, s :: About(db, i, s) ==> db.tasks[i].profile == db.peers[s].profile) &&
    (forall i, s :: About(db, i, s) && Present(db, i) ==> db.tasks[i].slot == s) &&
    (forall i, j, s :: About(db, i, s) && InOldSlot(db, j, s) && db.tasks[i].slot != s ==>
       db.tasks[i].revision < db.tasks[j].revision)
  }

  ghost predicate Homes(db: Db) {
    (forall d :: d in db.devices ==> db.devices[d].profile in db.profiles && d != 0) &&
    (forall s :: s in db.peers ==> db.peers[s].profile in db.profiles && s != 0) &&
    (forall n :: n in db.retirements ==> n !in db.nodes)
  }

  /** An Xray ensure at the present revision carries the client identity its device has. */
  ghost predicate CurrentSecret(db: Db, j: TaskId) {
    Present(db, j) && db.tasks[j].slot in db.devices && db.tasks[j].protocol.Xray? && db.tasks[j].action.Ensure? ==>
      db.tasks[j].secret == db.devices[db.tasks[j].slot].uuid
  }

  ghost predicate Secrets(db: Db) { forall j :: j in db.tasks ==> CurrentSecret(db, j) }

  ghost predicate Names(db: Db) {
    DistinctNames(db) && DeviceRows(db) && RenamedOnce(db) && OldPeerRows(db) && Homes(db) && Secrets(db)
  }

  /** Every ensure of the row's profile is older than revision r, if row i is one. */
  predicate EnsureBefore(db: Db, i: TaskId, p: ProfileId, r: nat)
    requires i in db.tasks
  {
    db.tasks[i].profile == p && db.tasks[i].action.Ensure? ==> db.tasks[i].revision < r
  }

  ghost predicate DeletionRevokes(db: Db, p: ProfileId)
    requires p in db.deletions
  {
    p in db.profiles && (p in db.grants ==> db.grants[p] == {}) &&
    (forall i :: i in db.tasks ==> EnsureBefore(db, i, p, db.profiles[p].revision)) &&
    (db.deletions[p].Some? ==>
       var o := db.deletions[p].value;
       o in db.ops && db.ops[o].profile == p &&
       forall i :: i in db.tasks ==> EnsureBefore(db, i, p, db.ops[o].revision))
  }

  /** After a profile's deletion was requested nothing is granted to it again. */
  ghost predicate DeletionsRevoke(db: Db) { forall p :: p in db.deletions ==> DeletionRevokes(db, p) }

  // ----- Operation states -----

  ghost predicate HasTask(db: Db, o: OpId) { exists i :: i in db.tasks && db.tasks[i].op == o }

  ghost predicate AllSucceeded(db: Db, o: OpId) {
    forall i :: i in db.tasks && db.tasks[i].op == o ==> db.tasks[i].status.Succeeded?
  }

  predicate Done(s: OpStatus) { s.OpSucceeded? || s.NoTargets? }

  ghost predicate Accurate(db: Db, o: OpId)
    requires o in db.ops
  {
    var st := db.ops[o].status;
    if !HasTask(db, o) then Done(st)
    else if Has(db, o, Running) then st.OpRunning? || st == Aggregate(db, o)
    else st == Aggregate(db, o)
  }

  ghost predicate OpState(s: System, o: OpId)
    requires o in s.db.ops
  {
    (o !in s.dirty ==> Accurate(s.db, o)) && (Done(s.db.ops[o].status) ==> AllSucceeded(s.db, o))
  }

  ghost predicate OpStates(s: System) { forall o :: o in s.db.ops ==> OpState(s, o) }

  ghost predicate Inv(s: System) {
    Core(s) && Revisions(s.db) && Names(s.db) && DeletionsRevoke(s.db) && OpStates(s)
  }

  // ----- Steps that leave the rows' identities alone -----

  predicate SameDevice(a: Device, b: Device) {
    a.profile == b.profile && a.awg == b.awg && a.xray == b.xray && a.revision <= b.revision &&
    (b.status.Active? ==> a.status.Active?) && (a.status.Retired? ==> b.status.Retired?) &&
    (a.revision == b.revision ==> a.uuid == b.uuid)
  }

  /** A device gets a new client identity only with a new revision of its profile. */
  predicate RaisedOrSame(db: Db, db': Db, d: DeviceId)
    requires d in db.devices && d in db'.devices
  {
    var p := db.devices[d].profile;
    db'.devices[d].uuid == db.devices[d].uuid ||
    (p in db.profiles && p in db'.profiles && db.profiles[p].revision < db'.profiles[p].revision)
  }

  ghost predicate SameRows(db: Db, db': Db) {
    db'.tasks.Keys == db.tasks.Keys && forall i :: i in db.tasks ==> SameRow(db.tasks[i], db'.tasks[i])
  }

  ghost predicate Grows(db: Db, db': Db) {
    forall p :: p in db.profiles ==> p in db'.profiles && db.profiles[p].revision <= db'.profiles[p].revision
  }

  ghost predicate SameOps(db: Db, db': Db) {
    db'.ops.Keys == db.ops.Keys &&
    forall o :: o in db.ops ==> db'.ops[o].profile == db.ops[o].profile && db'.ops[o].revision == db.ops[o].revision
  }

  ghost predicate SameNames(db: Db, db': Db) {
    db'.devices.Keys == db.devices.Keys && (forall d :: d in db.devices ==> SameDevice(db.devices[d], db'.devices[d])) &&
    (forall d :: d in db.devices ==> RaisedOrSame(db, db', d)) &&
    (forall s :: s in db'.peers ==> s in db.peers && db'.peers[s] == db.peers[s]) &&
    (forall n :: n in db'.retirements ==> n !in db'.nodes)
  }

  ghost predicate Frame(db: Db, db': Db) {
    SameRows(db, db') && Grows(db, db') && SameOps(db, db') && SameNames(db, db')
  }

  lemma FrameRevisions(db: Db, db': Db)
    requires Revisions(db) && SameRows(db, db') && Grows(db, db') && SameOps(db, db')
    ensures Revisions(db')
  {
  }

  /** The relations the name invariants are made of are unaffected, or shrink. */
  lemma FrameRelations(db: Db, db': Db, i: TaskId, s: DeviceId)
    requires Revisions(db) && Frame(db, db')
    ensures Bears(db, i, s) <==> Bears(db', i, s)
    ensures About(db', i, s) ==> About(db, i, s)
    ensures InOldSlot(db', i, s) ==> InOldSlot(db, i, s)
    ensures Present(db', i) ==> Present(db, i)
  {
  }

  lemma FrameDeviceRows(db: Db, db': Db)
    requires Revisions(db) && DeviceRows(db) && Frame(db, db')
    ensures DeviceRows(db')
  {
    forall i, d | Bears(db', i, d)
      ensures db'.tasks[i].slot == d
    {
      FrameRelations(db, db', i, d);
      assert SameRow(db.tasks[i], db'.tasks[i]);
    }
    forall i | i in db'.tasks
      ensures DeviceRow(db', i)
    {
      FrameRelations(db, db', i, db.tasks[i].slot);
      assert SameRow(db.tasks[i], db'.tasks[i]) && DeviceRow(db, i);
    }
  }

  lemma FrameRenamed(db: Db, db': Db)
    requires Revisions(db) && RenamedOnce(db) && Frame(db, db')
    ensures RenamedOnce(db')
  {
    forall i, j, d | Bears(db', i, d) && Follows(db', i, j)
      ensures Bears(db', j, d)
    {
      FrameRelations(db, db', i, d);
      FrameRelations(db, db', j, d);
      assert SameRow(db.tasks[i], db'.tasks[i]) && SameRow(db.tasks[j], db'.tasks[j]);
      assert Follows(db, i, j);
    }
    forall j | Present(db', j) && db'.tasks[j].slot in db'.devices
      ensures Bears(db', j, db'.tasks[j].slot)
    {
      FrameRelations(db, db', j, db'.tasks[j].slot);
      assert SameRow(db.tasks[j], db'.tasks[j]);
    }
  }

  lemma FrameOldPeers(db: Db, db': Db)
    requires Revisions(db) && OldPeerRows(db) && Frame(db, db')
    ensures OldPeerRows(db')
  {
    forall i, s | InOldSlot(db', i, s)
      ensures About(db', i, s) && db'.tasks[i].action.Delete?
    {
      FrameRelations(db, db', i, s);
      assert SameRow(db.tasks[i], db'.tasks[i]);
    }
    forall i, s | About(db', i, s)
      ensures db'.tasks[i].profile == db'.peers[s].profile && (Present(db', i) ==> db'.tasks[i].slot == s)
    {
      FrameRelations(db, db', i, s);
      assert SameRow(db.tasks[i], db'.tasks[i]);
    }
    forall i, j, s | About(db', i, s) && InOldSlot(db', j, s) && db'.tasks[i].slot != s
      ensures db'.tasks[i].revision < db'.tasks[j].revision
    {
      FrameRelations(db, db', i, s);
      FrameRelations(db, db', j, s);
      assert SameRow(db.tasks[i], db'.tasks[i]) && SameRow(db.tasks[j], db'.tasks[j]);
    }
  }

  lemma FrameDistinct(db: Db, db': Db)
    requires DistinctNames(db) && Homes(db) && Grows(db, db') && SameNames(db, db')
    ensures DistinctNames(db') && Homes(db')
  {
  }

  lemma FrameSecrets(db: Db, db': Db)
    requires Revisions(db) && DeviceRows(db) && Secrets(db) && Frame(db, db')
    ensures Secrets(db')
  {
    forall j | j in db'.tasks
      ensures CurrentSecret(db', j)
    {
      assert SameRow(db.tasks[j], db'.tasks[j]) && RevisionRow(db, j) && CurrentSecret(db, j) && DeviceRow(db, j);
      if db.tasks[j].slot in db.devices { assert RaisedOrSame(db, db', db.tasks[j].slot); }
    }
  }

  lemma FrameNames(db: Db, db': Db)
    requires Revisions(db) && Names(db) && Frame(db, db')
    ensures Names(db')
  {
    FrameSecrets(db, db');
    FrameDistinct(db, db');
    FrameDeviceRows(db, db');
    FrameRenamed(db, db');
    FrameOldPeers(db, db');
  }

  lemma FrameUnique(db: Db, db': Db)
    requires Unique(db) && SameRows(db, db')
    ensures Unique(db')
  {
  }

  lemma FrameDeletions(db: Db, db': Db)
    requires DeletionsRevoke(db) && SameRows(db, db') && Grows(db, db') && SameOps(db, db')
    requires db'.deletions == db.deletions
    requires forall p :: p in db'.grants && p in db.deletions ==> db'.grants[p] == {}
    ensures DeletionsRevoke(db')
  {
  }
}
