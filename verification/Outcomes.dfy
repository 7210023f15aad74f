/** What one error-free reconcile of an active instance comes to, state by state: the whole effect of each
    step of an update, of the version check and of a reconcile with nothing to do. */
module Outcomes {
  import opened Wrappers
  import opened Rclone
  import opened Cluster
  import opened AutoUpdate
  import opened Deletion
  import opened Lifecycle
  import opened Resilience
  import opened UpdateSafety
  import opened UpdateTheorems
  import Semver

  function End(c: Cluster, i: Inputs): Cluster {
    Reconcile(c, i, Smooth).w.db
  }

  function Wait(c: Cluster, i: Inputs): Requeue {
    Reconcile(c, i, Smooth).requeue
  }

  /** The cluster with another status. */
  function Stored(c: Cluster, phase: Phase, au: UpdateStatus): Cluster {
    c.(inst := c.inst.(status := c.inst.status.(phase := phase, au := au)))
  }

  // ----- health check -----

  predicate Checking(c: Cluster) {
    Active(c) && c.inst.status.au.pending != "" && c.inst.status.au.phase.HealthCheck?
  }

  predicate Ready(c: Cluster) {
    c.sts.Some? && c.sts.value.ready > 0 && c.sts.value.updated > 0
  }

  /** An update is confirmed exactly if the StatefulSet has ready and updated pods; otherwise the rollback
      begins exactly if the timeout has been reached since the update, and in the remaining case only the
      start of a check that had none is recorded. */
  lemma {:induction false} HealthCheckOutcome(c: Cluster, i: Inputs)
    requires Checking(c) && c.sts.Some?
    ensures var au, end := c.inst.status.au, End(c, i);
            var late := au.lastUpdate.Some? && c.now - au.lastUpdate.value >= HealthCheckTimeout(c.inst.spec.options.healthCheckTimeout);
            if Ready(c) then
              && end == Stored(c, Running, au.(current := au.pending, pending := "", phase := Idle, previous := "", backupPath := "", rollbacks := 0))
                          .(history := After(c.history, Confirmed(au.pending)))
              && Wait(c, i) == Now
            else if late then
              && end == Stored(c, Updating, au.(phase := RollingBack)).(history := After(c.history, HealthCheckFailed(au.pending)))
              && Wait(c, i) == Now
            else
              && end == Stored(c, c.inst.status.phase, au.(lastUpdate := if au.lastUpdate.Some? then au.lastUpdate else Some(c.now)))
              && Wait(c, i) == In(10)
  {
  }

  /** The same, as conditions on what is announced. */
  lemma {:induction false} ConfirmedIfReady(c: Cluster, i: Inputs)
    requires Checking(c) && c.sts.Some?
    ensures var au, end := c.inst.status.au, End(c, i);
            && (end.history == After(c.history, Confirmed(au.pending)) && end.inst.status.au.pending == "" <==>
                  c.sts.value.ready > 0 && c.sts.value.updated > 0)
            && (end.history == After(c.history, HealthCheckFailed(au.pending)) && end.inst.status.au.phase.RollingBack? <==>
                  !(c.sts.value.ready > 0 && c.sts.value.updated > 0) && au.lastUpdate.Some?
                  && c.now - au.lastUpdate.value >= HealthCheckTimeout(c.inst.spec.options.healthCheckTimeout))
            && end.inst.spec == c.inst.spec
  {
    HealthCheckOutcome(c, i);
  }

  // ----- giving up and rolling back -----

  /** The update is given up and the workload comes back. */
  function GivenUp(c: Cluster, reason: Reason): Cluster {
    var up := if c.sts.Some? && c.sts.value.replicas == Some(0) then c.(sts := Some(c.sts.value.(replicas := Some(1)))) else c;
    Stored(up, Running, c.inst.status.au.(pending := "", phase := Idle)).(history := After(c.history, Aborted(reason)))
  }

  lemma {:induction false} AbortWorld(w: World, reason: Reason)
    requires Calm(w) && w.inst == w.db.inst
    ensures AbortUpdate(w, reason) == Ret(World(GivenUp(w.db, reason), GivenUp(w.db, reason).inst, Smooth), In(30), false)
  {
  }

  predicate Returning(c: Cluster) {
    Active(c) && c.inst.status.au.pending != "" && c.inst.status.au.phase.RollingBack?
  }

  /** The previous tag is back, the version that failed is remembered, and the rollback is counted. */
  function Reverted(c: Cluster): Cluster {
    var au := c.inst.status.au;
    WithSpec(Stored(c, Provisioning, au.(
      failed := au.pending, pending := "", phase := Idle, previous := "", backupPath := "",
      rollbacks := au.rollbacks + 1, current := au.previous)), c.inst.spec.(tag := au.previous))
      .(history := After(c.history, RolledBack(au.pending, au.previous)))
  }

  lemma {:induction false} RevertWorld(w: World)
    requires Calm(w) && w.inst == w.db.inst
    ensures RevertTag(w, w.inst.status.au.previous) == Ret(World(Reverted(w.db), Reverted(w.db).inst, Smooth), Now, false)
  {
  }

  /** The Job that copies the recorded backup onto the volume. */
  function RestoreFrom(c: Cluster): Job
    requires Readable(c.secret)
  {
    Job(RcloneArgs(ParseSecret(c.secret.value).value, c.inst.status.au.backupPath, false), [])
  }

  /** Without a previous version the update is given up. With one, the tag is put back, after a recorded
      backup has been restored: the workload is scaled down, its pods are waited for, and then the Job that
      restores; if the backup cannot be restored, the tag is put back all the same. */
  lemma {:induction false} RollbackOutcome(c: Cluster, i: Inputs)
    requires Returning(c)
    ensures var au, end, wait, job := c.inst.status.au, End(c, i), Wait(c, i), RollbackRestore in c.jobs;
            if au.previous == "" then end == GivenUp(c, NoPreviousVersion) && wait == In(30)
            else if au.backupPath == "" || !c.inst.spec.options.persistence || c.sts.None? then end == Reverted(c) && wait == Now
            else if c.sts.value.replicas != Some(0) then end == c.(sts := Some(c.sts.value.(replicas := Some(0)))) && wait == In(5)
            else if c.pods > 0 then end == c && wait == In(5)
            else if !Readable(c.secret) then end == Reverted(c) && wait == Now
            else if !job then end == c.(jobs := c.jobs[RollbackRestore := RestoreFrom(c)]) && wait == In(10)
            else if VerdictOf(c.jobs[RollbackRestore].conditions).Unfinished? then end == c && wait == In(10)
            else end == Reverted(c) && wait == Now
  {
    var w, au := World(c, c.inst, Smooth), c.inst.status.au;
    if au.previous == "" {
      AbortWorld(w, NoPreviousVersion);
    } else {
      RestoreWorld(w);
      RevertWorld(w);
      ReturnStep(c, i);
    }
  }

  lemma {:induction false} ReturnStep(c: Cluster, i: Inputs)
    requires Returning(c)
    requires var r := DriveRollback(World(c, c.inst, Smooth));
             !r.err && !r.requeue.Never? && r.w.fate.Smooth? && r.w.inst == r.w.db.inst
    ensures var r := DriveRollback(World(c, c.inst, Smooth)); End(c, i) == r.w.db && Wait(c, i) == r.requeue
  {
    assert ReconcileAutoUpdate(World(c, c.inst, Smooth), i) == DriveRollback(World(c, c.inst, Smooth));
  }

  lemma {:induction false} RestoreWorld(w: World)
    requires Calm(w) && w.inst == w.db.inst
    ensures var c := w.db;
            DriveRollbackRestore(w, w.inst.status.au.backupPath) ==
            if c.sts.None? then BackupRet(w, Never, true, false)
            else if c.sts.value.replicas != Some(0) then BackupRet(w.(db := c.(sts := Some(c.sts.value.(replicas := Some(0))))), In(5), false, false)
            else if c.pods > 0 then BackupRet(w, In(5), false, false)
            else if !Readable(c.secret) then BackupRet(w, Never, false, true)
            else if RollbackRestore !in c.jobs then BackupRet(w.(db := c.(jobs := c.jobs[RollbackRestore := RestoreFrom(c)])), In(10), false, false)
            else match VerdictOf(c.jobs[RollbackRestore].conditions)
              case Unfinished => BackupRet(w, In(10), false, false)
              case Failed => BackupRet(w, Never, false, true)
              case Completed => BackupRet(w, Never, true, false)
  {
  }

  // ----- starting and applying an update -----

  /** A backup precedes the update only where it is wanted and there is a volume to copy. */
  predicate BacksUp(c: Cluster) {
    c.inst.spec.options.backupBeforeUpdate && c.inst.spec.options.persistence
  }

  predicate Pursuing(c: Cluster) {
    && Active(c) && c.inst.status.au.pending != ""
    && !c.inst.status.au.phase.HealthCheck? && !c.inst.status.au.phase.RollingBack?
  }

  /** The phase becomes Updating before anything else happens. */
  lemma {:induction false} UpdatingFirst(c: Cluster, i: Inputs)
    requires Pursuing(c) && !c.inst.status.phase.Updating?
    ensures End(c, i) == Stored(c, Updating, c.inst.status.au) && Wait(c, i) == Now
  {
  }

  /** Back to one replica, if the backup had scaled to none. */
  function ScaledUp(c: Cluster): Cluster {
    if BacksUp(c) && c.sts.Some? && c.sts.value.replicas == Some(0)
    then c.(sts := Some(c.sts.value.(replicas := Some(1)))) else c
  }

  /** The tag becomes the pending version, the old one is remembered, the workload comes back, and the
      health check begins or, without rollback, the update is over. `path` is the backup on record. */
  predicate UpdateApplied(c: Cluster, path: string, end: Cluster, wait: Requeue) {
    var au := c.inst.status.au;
    var patched := WithSpec(ScaledUp(c), c.inst.spec.(tag := au.pending));
    if c.inst.spec.options.rollbackOnFailure then
      && wait == In(10)
      && end == Stored(patched, Provisioning, au.(previous := c.inst.spec.tag, phase := HealthCheck, lastUpdate := Some(c.now), backupPath := path))
                  .(history := After(c.history, Applied(au.pending, false)))
    else
      && wait == Now
      && end == Stored(patched, Provisioning, au.(current := au.pending, pending := "", phase := Idle, lastUpdate := Some(c.now),
                  previous := "", backupPath := "", rollbacks := 0))
                  .(history := After(c.history, Applied(au.pending, true)))
  }

  lemma {:induction false} ApplyOutcome(c: Cluster, i: Inputs)
    requires Pursuing(c) && c.inst.status.phase.Updating?
    requires c.inst.status.au.phase.ApplyingUpdate? || !BacksUp(c)
    ensures UpdateApplied(c, c.inst.status.au.backupPath, End(c, i), Wait(c, i))
  {
    ApplyWorld(World(c, c.inst, Smooth));
  }

  lemma {:induction false} ApplyWorld(w: World)
    requires Calm(w) && w.inst == SetAutoUpdate(World(w.db, w.db.inst, w.fate), w.db.inst.status.au.(backupPath := w.inst.status.au.backupPath)).inst
    ensures var r := ApplyUpdate(w);
            && UpdateApplied(w.db, w.inst.status.au.backupPath, r.w.db, r.requeue) && r.w.inst == r.w.db.inst && r.w.fate.Smooth?
  {
  }

  // ----- the pre-update backup -----

  predicate Backing(c: Cluster) {
    && Pursuing(c) && c.inst.status.phase.Updating? && BacksUp(c)
    && (c.inst.status.au.phase.Idle? || c.inst.status.au.phase.BackingUp?)
  }

  /** Nothing but the phase changes. */
  function BackingOn(c: Cluster): Cluster {
    Stored(c, Updating, c.inst.status.au.(phase := BackingUp))
  }

  /** What a backup step leaves of the world, and what the reconcile makes of it. */
  lemma {:induction false} BackupStep(c: Cluster, i: Inputs, d: Cluster, wait: Requeue)
    requires Backing(c) && !wait.Never? && d.inst == c.inst
    requires DrivePreUpdateBackup(World(c, c.inst, Smooth), i) == BackupRet(World(d, c.inst, Smooth), wait, false, false)
    ensures End(c, i) == BackingOn(d) && Wait(c, i) == wait
  {
  }

  lemma {:induction false} BackupFails(c: Cluster, i: Inputs)
    requires Backing(c)
    requires DrivePreUpdateBackup(World(c, c.inst, Smooth), i) == BackupRet(World(c, c.inst, Smooth), Never, false, true)
    ensures End(c, i) == GivenUp(c, BackupFailed) && Wait(c, i) == In(30)
  {
    AbortWorld(World(c, c.inst, Smooth), BackupFailed);
  }

  /** First the workload is scaled down, then its pods are waited for; no Job is created meanwhile. */
  lemma {:induction false} QuiesceOutcome(c: Cluster, i: Inputs)
    requires Backing(c) && c.sts.Some? && !ScaledDown(c)
    ensures if c.sts.value.replicas != Some(0)
            then End(c, i) == BackingOn(c.(sts := Some(c.sts.value.(replicas := Some(0))))) && Wait(c, i) == In(5)
            else End(c, i) == BackingOn(c) && Wait(c, i) == In(5)
  {
    var w := World(c, c.inst, Smooth);
    if c.sts.value.replicas != Some(0) {
      var d := c.(sts := Some(c.sts.value.(replicas := Some(0))));
      assert DrivePreUpdateBackup(w, i) == BackupRet(World(d, c.inst, Smooth), In(5), false, false);
      BackupStep(c, i, d, In(5));
    } else {
      assert DrivePreUpdateBackup(w, i) == BackupRet(w, In(5), false, false);
      BackupStep(c, i, c, In(5));
    }
  }

  /** With the workload down, a missing or unusable Secret ends the update. */
  lemma {:induction false} UnreadableOutcome(c: Cluster, i: Inputs)
    requires Backing(c) && ScaledDown(c) && !Readable(c.secret)
    ensures End(c, i) == GivenUp(c, BackupFailed) && Wait(c, i) == In(30)
  {
    var w := World(c, c.inst, Smooth);
    assert DrivePreUpdateBackup(w, i) == BackupRet(w, Never, false, true);
    BackupFails(c, i);
  }

  /** The Job that copies the volume to the instance's own pre-update path. */
  function PreUpdateBackupJob(c: Cluster, stamp: string): Job
    requires Readable(c.secret)
  {
    BackupJob(ParseSecret(c.secret.value).value,
              "backups/" + c.inst.spec.tenant + "/" + c.inst.spec.name + "/pre-update-" + stamp)
  }

  /** Without a Job one is created; an unfinished one is waited for; a failed one ends the update. */
  lemma {:induction false} JobOutcome(c: Cluster, i: Inputs)
    requires Backing(c) && ScaledDown(c) && Readable(c.secret)
    requires PreUpdateBackup in c.jobs ==> !VerdictOf(c.jobs[PreUpdateBackup].conditions).Completed?
    ensures if PreUpdateBackup !in c.jobs
            then End(c, i) == BackingOn(c.(jobs := c.jobs[PreUpdateBackup := PreUpdateBackupJob(c, i.stamp)])) && Wait(c, i) == In(10)
            else if VerdictOf(c.jobs[PreUpdateBackup].conditions).Unfinished?
            then End(c, i) == BackingOn(c) && Wait(c, i) == In(10)
            else End(c, i) == GivenUp(c, BackupFailed) && Wait(c, i) == In(30)
  {
    var w := World(c, c.inst, Smooth);
    JobWorld(w, i);
    if PreUpdateBackup !in c.jobs {
      BackupStep(c, i, c.(jobs := c.jobs[PreUpdateBackup := PreUpdateBackupJob(c, i.stamp)]), In(10));
    } else if VerdictOf(c.jobs[PreUpdateBackup].conditions).Unfinished? {
      BackupStep(c, i, c, In(10));
    } else {
      BackupFails(c, i);
    }
  }

  lemma {:induction false} JobWorld(w: World, i: Inputs)
    requires Calm(w) && ScaledDown(w.db) && Readable(w.db.secret)
    ensures DrivePreUpdateBackup(w, i) ==
            if PreUpdateBackup !in w.db.jobs
            then BackupRet(w.(db := w.db.(jobs := w.db.jobs[PreUpdateBackup := PreUpdateBackupJob(w.db, i.stamp)])), In(10), false, false)
            else match VerdictOf(w.db.jobs[PreUpdateBackup].conditions)
              case Unfinished => BackupRet(w, In(10), false, false)
              case Failed => BackupRet(w, Never, false, true)
              case Completed => BackupRet(w, Never, true, false)
  {
  }

  /** A completed Job, or the lack of a workload to back up, lets the update be applied. The path on record
      is the empty one, for every Job that has the mount point as its source. */
  lemma {:induction false} BackedUpOutcome(c: Cluster, i: Inputs)
    requires Backing(c)
    requires PreUpdateBackup in c.jobs ==> |c.jobs[PreUpdateBackup].args| >= 2 && c.jobs[PreUpdateBackup].args[1] == "/data/"
    requires c.sts.None? ||
             (ScaledDown(c) && Readable(c.secret) && PreUpdateBackup in c.jobs
              && VerdictOf(c.jobs[PreUpdateBackup].conditions).Completed?)
    ensures UpdateApplied(c, "", End(c, i), Wait(c, i))
  {
    var w := World(c, c.inst, Smooth);
    if c.sts.Some? {
      JobWorld(w, i);
    }
    assert DrivePreUpdateBackup(w, i) == BackupRet(w, Never, true, false);
    RecordWorld(w);
    ApplyWorld(RecordBackupPath(w));
    BackupDone(c, i);
  }

  lemma {:induction false} RecordWorld(w: World)
    requires Calm(w)
    requires PreUpdateBackup in w.db.jobs ==> |w.db.jobs[PreUpdateBackup].args| >= 2 && w.db.jobs[PreUpdateBackup].args[1] == "/data/"
    ensures RecordBackupPath(w) == SetAutoUpdate(w, w.inst.status.au.(backupPath := ""))
  {
  }

  lemma {:induction false} BackupDone(c: Cluster, i: Inputs)
    requires Backing(c)
    requires var w := World(c, c.inst, Smooth);
             && DrivePreUpdateBackup(w, i) == BackupRet(w, Never, true, false)
             && var r := ApplyUpdate(RecordBackupPath(w)); r.w.inst == r.w.db.inst && r.w.fate.Smooth? && !r.requeue.Never?
    ensures var r := ApplyUpdate(RecordBackupPath(World(c, c.inst, Smooth))); End(c, i) == r.w.db && Wait(c, i) == r.requeue
  {
    var w := World(c, c.inst, Smooth);
    assert ReconcileAutoUpdate(w, i) == ApplyUpdate(RecordBackupPath(w));
  }

  // ----- an update that cannot be applied -----

  /** The pending version, with the old tag on record as its predecessor. */
  function Begun(c: Cluster): Cluster {
    Stored(c, c.inst.status.phase, c.inst.status.au.(previous := c.inst.spec.tag, phase := ApplyingUpdate))
  }

  /** If the tag cannot be patched, the update is given up and the tag stays; if the workload cannot be
      scaled up again, it is given up, and the new tag stays. */
  lemma {:induction false} ApplyFails(c: Cluster, i: Inputs)
    requires Pursuing(c) && c.inst.status.phase.Updating? && c.inst.status.au.phase.ApplyingUpdate?
    ensures var r := Reconcile(c, i, Next(true, Next(true, Next(false, Smooth))));
            r.w.db == GivenUp(Begun(c), PatchFailed) && r.requeue == In(30) && !r.err
    ensures BacksUp(c) && c.sts.Some? && c.sts.value.replicas == Some(0) ==>
            var r := Reconcile(c, i, Next(true, Next(true, Next(true, Next(true, Next(false, Smooth))))));
            r.w.db == GivenUp(WithSpec(Begun(c), c.inst.spec.(tag := c.inst.status.au.pending)), ScaleUpFailed) && r.requeue == In(30) && !r.err
  {
    PatchFails(c, i);
    if BacksUp(c) && c.sts.Some? && c.sts.value.replicas == Some(0) {
      ScaleUpFails(c, i);
    }
  }

  lemma {:induction false} PatchFails(c: Cluster, i: Inputs)
    requires Pursuing(c) && c.inst.status.phase.Updating? && c.inst.status.au.phase.ApplyingUpdate?
    ensures var r := Reconcile(c, i, Next(true, Next(true, Next(false, Smooth))));
            r.w.db == GivenUp(Begun(c), PatchFailed) && r.requeue == In(30) && !r.err
  {
    var w := World(c, c.inst, Next(true, Next(false, Smooth)));
    var inst := Begun(c).inst;
    var x := World(Begun(c), inst.(spec := inst.spec.(tag := c.inst.status.au.pending)), Smooth);
    assert ReconcileAutoUpdate(w, i) == AbortUpdate(x, PatchFailed);
    AbortStatus(x, PatchFailed);
  }

  lemma {:induction false} ScaleUpFails(c: Cluster, i: Inputs)
    requires Pursuing(c) && c.inst.status.phase.Updating? && c.inst.status.au.phase.ApplyingUpdate?
    requires BacksUp(c) && c.sts.Some? && c.sts.value.replicas == Some(0)
    ensures var r := Reconcile(c, i, Next(true, Next(true, Next(true, Next(true, Next(false, Smooth))))));
            r.w.db == GivenUp(WithSpec(Begun(c), c.inst.spec.(tag := c.inst.status.au.pending)), ScaleUpFailed) && r.requeue == In(30) && !r.err
  {
    var w := World(c, c.inst, Next(true, Next(true, Next(true, Next(false, Smooth)))));
    var d := WithSpec(Begun(c), c.inst.spec.(tag := c.inst.status.au.pending));
    var x := World(d, d.inst, Smooth);
    assert ReconcileAutoUpdate(w, i) == AbortUpdate(x, ScaleUpFailed);
    AbortStatus(x, ScaleUpFailed);
  }

  /** Whatever the local copy's spec, giving up writes the status alone. */
  lemma {:induction false} AbortStatus(w: World, reason: Reason)
    requires w.fate.Smooth? && w.inst.status == w.db.inst.status
    ensures var r := AbortUpdate(w, reason);
            && r.w.db == GivenUp(w.db, reason) && r.w.inst.status == r.w.db.inst.status && r.w.fate.Smooth? && r.requeue == In(30) && !r.err
  {
  }

  // ----- resources -----

  predicate Untroubled(c: Cluster) {
    Active(c) && c.inst.status.au.pending == ""
  }

  /** The StatefulSet of an instance that is not suspended: the tag of the spec, and one replica unless an
      HPA has a say. */
  function Workload(c: Cluster): StatefulSet {
    var tag, hpa := c.inst.spec.tag, c.inst.spec.options.hpa;
    var has := c.sts.Some? && c.sts.value.replicas.Some?;
    StatefulSet(
      if !hpa then Some(1) else if has then c.sts.value.replicas else None,
      if tag == "" then "latest" else tag,
      if c.sts.Some? then c.sts.value.ready else 0,
      if c.sts.Some? then c.sts.value.updated else 0)
  }

  /** Provisioning until a pod is ready, then Running, or Degraded without its skill packs. */
  function Observed(c: Cluster, i: Inputs): Phase {
    if c.sts.None? || c.sts.value.ready == 0 then Phase.Provisioning else if i.packsFailed then Degraded else Running
  }

  function Delay(c: Cluster): nat {
    if c.sts.None? || c.sts.value.ready == 0 then 10 else 300
  }

  /** The cluster with its workload written, as the version check finds it. */
  function Provided(c: Cluster, i: Inputs): World {
    var inst := c.inst.(status := c.inst.status.(phase := Observed(c, i)));
    World(c.(sts := Some(Workload(c))), inst, Smooth)
  }

  lemma {:induction false} ProvidedByReconcile(c: Cluster, i: Inputs)
    requires Untroubled(c)
    requires var r := ReconcileAutoUpdate(Provided(c, i), i);
             r.w.fate.Smooth? && r.w.db.inst.status == c.inst.status && r.w.inst.spec == r.w.db.inst.spec
    ensures var r := ReconcileAutoUpdate(Provided(c, i), i);
            && End(c, i) == r.w.db.(inst := r.w.inst)
            && Wait(c, i) == if r.requeue.Now? then Now else if r.requeue.In? && r.requeue.seconds < Delay(c) then r.requeue else In(Delay(c))
  {
    var w := World(c, c.inst, Smooth);
    assert ReconcileResources(w) == Reply(World(c.(sts := Some(Workload(c))), c.inst, Smooth), true);
    var w1 := ReconcileResources(w).w;
    assert SetPhase(w1, ObservedPhase(w1, i)) == Provided(c, i);
  }

  /** The suspended instance is scaled to nothing and reports so, whatever is pending. */
  lemma {:induction false} SuspendedOutcome(c: Cluster, i: Inputs)
    requires !c.inst.spec.deleting && c.inst.spec.finalizer && c.inst.spec.suspended
    requires !c.inst.status.phase.Unset? && !c.inst.status.phase.Pending?
    ensures End(c, i) == Stored(c, Suspended, c.inst.status.au).(sts := Some(Workload(c).(replicas := Some(0)))) && Wait(c, i) == In(300)
  {
    var w := World(c, c.inst, Smooth);
    assert ReconcileResources(w) == Reply(World(c.(sts := Some(Workload(c).(replicas := Some(0)))), c.inst, Smooth), true);
  }

  // ----- the version check -----

  /** A check is due: auto-update is on and possible, the breaker closed, and the interval over. */
  predicate Due(c: Cluster, i: Inputs) {
    var au := c.inst.status.au;
    && c.inst.spec.options.enabled && !c.inst.spec.options.digestPinned && i.resolver && au.rollbacks < 3
    && (au.lastCheck.None? || c.now - au.lastCheck.value >= CheckInterval(c.inst.spec.options.checkInterval))
  }

  lemma {:induction false} NotDueOutcome(c: Cluster, i: Inputs)
    requires Untroubled(c) && !Due(c, i)
    ensures End(c, i) == Stored(c, Observed(c, i), c.inst.status.au).(sts := Some(Workload(c))) && Wait(c, i) == In(Delay(c))
  {
    var w := Provided(c, i);
    assert ReconcileAutoUpdate(w, i) == Ret(w, Never, false);
    ProvidedByReconcile(c, i);
  }

  /** The registry is down, or has no stable tag. */
  predicate NoAnswer(c: Cluster, i: Inputs) {
    !i.registryUp || forall j :: 0 <= j < |c.tags| ==> !Semver.Releases(i.parse, None, c.tags[j])
  }

  lemma {:induction false} NoAnswerOutcome(c: Cluster, i: Inputs)
    requires Untroubled(c) && Due(c, i) && NoAnswer(c, i)
    ensures End(c, i) == Stored(c, Observed(c, i), c.inst.status.au.(lastCheck := Some(c.now))).(sts := Some(Workload(c)))
    ensures Wait(c, i) == In(Delay(c))
  {
    var w := Provided(c, i);
    NothingStable(i.parse, c.tags, i.registryUp);
    var x := SetAutoUpdate(w, w.inst.status.au.(lastCheck := Some(c.now)));
    assert ReconcileAutoUpdate(w, i) == Ret(x, Never, false);
    ProvidedByReconcile(c, i);
  }

  lemma {:induction false} NothingStable(parse: Semver.Parser, tags: seq<string>, up: bool)
    ensures !up || (forall j :: 0 <= j < |tags| ==> !Semver.Releases(parse, None, tags[j])) ==>
      (if up then Semver.Answer(parse, None, tags) else None) == None
  {
    Semver.AnswerIsStable(parse, None, tags);
  }

  /** `tag` is the registry's answer: the first of its newest stable tags. */
  predicate Answers(c: Cluster, i: Inputs, k: nat) {
    i.registryUp && k < |c.tags| && Semver.Newest(i.parse, None, c.tags, k)
  }

  /** A tag that names no version yet is set to the answer. */
  lemma {:induction false} LatestOutcome(c: Cluster, i: Inputs, k: nat)
    requires Untroubled(c) && Due(c, i) && Answers(c, i, k) && (c.inst.spec.tag == "" || c.inst.spec.tag == "latest")
    ensures var au := c.inst.status.au.(lastCheck := Some(c.now), latest := c.tags[k], current := c.tags[k]);
            && End(c, i) == WithSpec(Stored(c, Observed(c, i), au), c.inst.spec.(tag := c.tags[k]))
                 .(sts := Some(Workload(c)), history := After(c.history, TagResolved(c.tags[k])))
            && Wait(c, i) == Now
  {
    Semver.NewestIsAnswer(i.parse, None, c.tags, k);
    var w, version := Provided(c, i), c.tags[k];
    var w1 := SetAutoUpdate(w, w.inst.status.au.(lastCheck := Some(c.now), latest := version));
    assert ReconcileAutoUpdate(w, i) == ResolveLatest(w1, version);
    ProvidedByReconcile(c, i);
  }

  predicate Newer(c: Cluster, i: Inputs, version: string) {
    i.parse(c.inst.spec.tag).Some? && i.parse(version).Some?
    && Semver.Below(i.parse(c.inst.spec.tag).value, i.parse(version).value)
  }

  /** The failure remembered is forgotten once a later version is out. */
  function FailedNow(c: Cluster, i: Inputs, version: string): string {
    var failed := c.inst.status.au.failed;
    if i.parse(failed).Some? && i.parse(version).Some? && Semver.Below(i.parse(failed).value, i.parse(version).value) then "" else failed
  }

  /** An answer that is newer than the tag, and not the version that failed, becomes pending and is
      announced; otherwise the check is noted and nothing becomes pending. */
  lemma {:induction false} CheckOutcome(c: Cluster, i: Inputs, k: nat)
    requires Untroubled(c) && Due(c, i) && Answers(c, i, k) && c.inst.spec.tag != "" && c.inst.spec.tag != "latest"
    requires Sane(i.parse)
    ensures var version := c.tags[k];
            var noted := c.inst.status.au.(lastCheck := Some(c.now), latest := version);
            var both := i.parse(c.inst.spec.tag).Some? && i.parse(version).Some?;
            var seen := if both then noted.(current := c.inst.spec.tag) else noted;
            if Newer(c, i, version) && c.inst.status.au.failed != version then
              && End(c, i) == Stored(c, Observed(c, i), seen.(failed := FailedNow(c, i, version), pending := version, phase := Idle))
                   .(sts := Some(Workload(c)), history := After(c.history, Available(version, c.inst.spec.tag)))
              && Wait(c, i) == Now
            else
              && End(c, i) == Stored(c, Observed(c, i), if Newer(c, i, version) then seen.(failed := FailedNow(c, i, version)) else seen).(sts := Some(Workload(c)))
              && Wait(c, i) == In(Delay(c))
  {
    Semver.NewestIsAnswer(i.parse, None, c.tags, k);
    var w, version := Provided(c, i), c.tags[k];
    var w1 := SetAutoUpdate(w, w.inst.status.au.(lastCheck := Some(c.now), latest := version));
    assert ReconcileAutoUpdate(w, i) == CompareVersions(w1, i, version);
    CompareWorld(w1, i, version);
    ProvidedByReconcile(c, i);
  }

  lemma {:induction false} CompareWorld(w: World, i: Inputs, version: string)
    requires w.fate.Smooth? && w.inst.spec == w.db.inst.spec && Sane(i.parse)
    ensures var c := w.db.(inst := w.inst);
            var both := i.parse(w.inst.spec.tag).Some? && i.parse(version).Some?;
            var seen := if both then w.inst.status.au.(current := w.inst.spec.tag) else w.inst.status.au;
            CompareVersions(w, i, version) ==
            if Newer(c, i, version) && w.inst.status.au.failed != version
            then Ret(SetAutoUpdate(Emit(w, Available(version, w.inst.spec.tag)), seen.(failed := FailedNow(c, i, version), pending := version, phase := Idle)), Now, false)
            else Ret(SetAutoUpdate(w, if Newer(c, i, version) then seen.(failed := FailedNow(c, i, version)) else seen), Never, false)
  {
    if i.parse(version).Some? {
      var v := i.parse(version).value;
      Semver.PrecedenceIsTotalOrder(v, v, v);
    }
  }

  /** A newer version becomes pending and is announced exactly if the tag is lower and it has not failed. */
  lemma {:induction false} AnnouncedExactly(c: Cluster, i: Inputs, k: nat)
    requires Untroubled(c) && Due(c, i) && Answers(c, i, k) && c.inst.spec.tag != "" && c.inst.spec.tag != "latest"
    requires Sane(i.parse)
    ensures var end := End(c, i);
            && (end.inst.status.au.pending == c.tags[k] && end.history == After(c.history, Available(c.tags[k], c.inst.spec.tag)) <==>
                  && i.parse(c.inst.spec.tag).Some? && i.parse(c.tags[k]).Some?
                  && Semver.Precedes(i.parse(c.inst.spec.tag).value, i.parse(c.tags[k]).value)
                  && c.inst.status.au.failed != c.tags[k])
            && (!Newer(c, i, c.tags[k]) || c.inst.status.au.failed == c.tags[k] ==>
                  end.inst.status.au.pending == "" && end.history == c.history)
  {
    CheckOutcome(c, i, k);
    if i.parse(c.inst.spec.tag).Some? && i.parse(c.tags[k]).Some? {
      Semver.BelowByRule(i.parse(c.inst.spec.tag).value, i.parse(c.tags[k]).value);
    }
    NoEmptyExtension(c.history, Available(c.tags[k], c.inst.spec.tag));
  }

  lemma {:induction false} NoEmptyExtension(h: History, n: Notice)
    ensures h != After(h, n)
  {
    if h.After? {
      NoEmptyExtension(h.past, h.notice);
    }
  }

  // ----- a new instance -----

  lemma {:induction false} FinalizerOutcome(c: Cluster, i: Inputs)
    requires !c.inst.spec.deleting && !c.inst.spec.finalizer
    ensures End(c, i) == WithSpec(c, c.inst.spec.(finalizer := true)) && Wait(c, i) == Now
  {
  }

  predicate Starting(c: Cluster) {
    !c.inst.spec.deleting && c.inst.spec.finalizer && (c.inst.status.phase.Unset? || c.inst.status.phase.Pending?)
  }

  /** From no phase to Pending; from there, with a tag "latest" that can be resolved, to its version; and
      otherwise on as any provisioned instance. */
  lemma {:induction false} StartingOutcome(c: Cluster, i: Inputs)
    requires Starting(c)
    ensures var resolves := c.inst.spec.options.enabled && !c.inst.spec.options.digestPinned && c.inst.spec.tag == "latest" && i.resolver;
            if c.inst.status.phase.Unset? then End(c, i) == Stored(c, Phase.Pending, c.inst.status.au) && Wait(c, i) == Now
            else if resolves && !NoAnswer(c, i) then
              forall k: nat :: Answers(c, i, k) ==>
                && End(c, i) == WithSpec(Stored(c, Phase.Provisioning, c.inst.status.au.(current := c.tags[k])), c.inst.spec.(tag := c.tags[k]))
                     .(history := After(c.history, TagResolved(c.tags[k])))
                && Wait(c, i) == Now
            else
              var d := Stored(c, Phase.Provisioning, c.inst.status.au);
              End(c, i) == End(d, i) && Wait(c, i) == Wait(d, i)
  {
    if c.inst.status.phase.Pending? {
      var d := Stored(c, Phase.Provisioning, c.inst.status.au);
      var w := World(d, d.inst, Smooth);
      NothingStable(i.parse, c.tags, i.registryUp);
      forall k: nat | Answers(c, i, k) ensures LatestVersion(w, i) == Some(c.tags[k]) {
        Semver.NewestIsAnswer(i.parse, None, c.tags, k);
      }
      ResolveWorld(w, i);
    }
  }

  lemma {:induction false} ResolveWorld(w: World, i: Inputs)
    requires Calm(w) && w.inst == w.db.inst
    ensures var resolves := w.inst.spec.options.enabled && !w.inst.spec.options.digestPinned && w.inst.spec.tag == "latest" && i.resolver;
            var r, answer := ResolveInitialTag(w, i), LatestVersion(w, i);
            if !resolves || answer.None? then r == Ret(w, Never, false)
            else
              && !r.err && r.requeue.Now?
              && r.w.db == WithSpec(Stored(w.db, w.inst.status.phase, w.inst.status.au.(current := answer.value)), w.inst.spec.(tag := answer.value))
                   .(history := After(w.db.history, TagResolved(answer.value)))
  {
  }

  /** Without a StatefulSet a health check waits. */
  lemma {:induction false} HealthCheckWaits(c: Cluster, i: Inputs)
    requires Checking(c) && c.sts.None?
    ensures End(c, i) == c && Wait(c, i) == In(10)
  {
  }

  /** Resources that cannot be written leave the instance Failed, to be tried again in two minutes; the
      StatefulSet is there if what comes after it failed. */
  lemma {:induction false} FailureOutcome(c: Cluster, i: Inputs, before: bool)
    requires Untroubled(c)
    ensures var rest := Next(false, Smooth);
            var r := Reconcile(c, i, Next(true, if before then rest else Next(true, rest)));
            r.w.db == Stored(c, FailedPhase, c.inst.status.au) && r.requeue == In(120) && r.err
    ensures var r := Reconcile(c, i, Next(true, Next(true, Next(true, Next(false, Smooth)))));
            r.w.db == Stored(c, FailedPhase, c.inst.status.au).(sts := Some(Workload(c))) && r.requeue == In(120) && r.err
  {
    var w := World(c, c.inst, Next(true, Next(true, Next(false, Smooth))));
    assert ReconcileResources(w) == Reply(World(c.(sts := Some(Workload(c))), c.inst, Smooth), false);
  }

  /** The status is written only if it changed: between two checks a reconcile fails on a refused status
      write exactly if the phase is another one, or a condition. */
  lemma {:induction false} WritesOnlyChanges(c: Cluster, i: Inputs)
    requires Untroubled(c) && !Due(c, i)
    ensures var r := Reconcile(c, i, Next(true, Next(true, Next(true, Next(true, Next(false, Smooth))))));
            && (r.err <==> Observed(c, i) != c.inst.status.phase || i.conditionsChanged)
            && r.w.db == c.(sts := Some(Workload(c)))
  {
    var w := World(c, c.inst, Next(true, Next(true, Next(true, Next(false, Smooth)))));
    var x := World(c.(sts := Some(Workload(c))), c.inst, Next(false, Smooth));
    assert ReconcileResources(w) == Reply(x, true);
    var y := SetPhase(x, ObservedPhase(x, i));
    assert y.inst.status.phase == Observed(c, i);
    assert ReconcileAutoUpdate(y, i) == Ret(y, Never, false);
  }
}
