/** The controller as it is written: methods that assign fields of the instance they hold, call the
    API server in between and return early. Each is proved to take the transition of its namesake. */
module Reconciler {
  import opened Wrappers
  import opened Rclone
  import opened Cluster
  import opened AutoUpdate
  import opened Deletion
  import opened Lifecycle
  import Semver
  import Resilience
  import UpdateSafety
  import StopSafety
  import DeletionDeadline

  class InstanceReconciler {
    /** The API server's state. */
    var db: Cluster
    /** The controller's own copy of the instance. */
    var inst: Instance
    /** What becomes of the calls still to come. */
    var fate: Fate

    ghost function Here(): World
      reads this
    {
      World(db, inst, fate)
    }

    constructor (c: Cluster, fate: Fate)
      ensures Here() == World(c, c.inst, fate)
    {
      this.db, this.inst, this.fate := c, c.inst, fate;
    }

    // ----- API calls -----

    method Invoke() returns (ok: bool)
      modifies this`fate
      ensures Reply(Here(), ok) == Call(old(Here()))
    {
      match fate
      case Smooth => ok := true;
      case Stopped => ok := false;
      case Next(next, rest) =>
        fate := rest;
        ok := next;
    }

    method UpdateStatus() returns (ok: bool)
      modifies this
      ensures Reply(Here(), ok) == WriteStatus(old(Here()))
    {
      ok := Invoke();
      if ok {
        db := db.(inst := db.inst.(status := inst.status));
      }
    }

    method PatchImageTag(tag: string) returns (ok: bool)
      modifies this
      ensures Reply(Here(), ok) == PatchTag(old(Here()), tag)
    {
      inst := inst.(spec := inst.spec.(tag := tag));
      ok := Invoke();
      if ok {
        db := db.(inst := db.inst.(spec := db.inst.spec.(tag := tag)));
      }
    }

    method Scale(n: nat) returns (ok: bool)
      requires db.sts.Some?
      modifies this
      ensures Reply(Here(), ok) == PatchReplicas(old(Here()), n)
    {
      ok := Invoke();
      if ok {
        db := db.(sts := Some(db.sts.value.(replicas := Some(n))));
      }
    }

    method Create(name: JobName, job: Job) returns (ok: bool)
      modifies this
      ensures Reply(Here(), ok) == CreateJob(old(Here()), name, job)
    {
      ok := Invoke();
      if ok {
        db := db.(jobs := db.jobs[name := job]);
      }
    }

    method Record(n: Notice)
      modifies this`db
      ensures Here() == Emit(old(Here()), n)
    {
      if !fate.Stopped? {
        db := db.(history := After(db.history, n));
      }
    }

    method EnterPhase(p: Phase)
      modifies this`inst
      ensures Here() == SetPhase(old(Here()), p)
    {
      inst := inst.(status := inst.status.(phase := p));
    }

    method SetUpdateStatus(au: UpdateStatus)
      modifies this`inst
      ensures Here() == SetAutoUpdate(old(Here()), au)
    {
      inst := inst.(status := inst.status.(au := au));
    }

    method GetCredentials() returns (creds: CredentialReply)
      modifies this`fate
      ensures (Here(), creds) == ReadCredentials(old(Here()))
    {
      var ok := Invoke();
      if !ok {
        return Unusable;
      }
      if db.secret.None? {
        return Missing;
      }
      match ParseSecret(db.secret.value)
      case Some(c) => creds := Usable(c);
      case None => creds := Unusable;
    }

    method Mirror(creds: Credentials) returns (ok: bool)
      modifies this`fate
      ensures Reply(Here(), ok) == MirrorSecret(old(Here()), creds)
    {
      ok := true;
      if !creds.envAuth {
        ok := Invoke();
      }
    }

    // ----- autoupdate.go -----

    method Abort(reason: Reason) returns (requeue: Requeue, err: bool)
      modifies this
      ensures Ret(Here(), requeue, err) == AbortUpdate(old(Here()), reason)
    {
      SetUpdateStatus(inst.status.au.(pending := "", phase := Idle));
      EnterPhase(Running);
      Record(Aborted(reason));
      var ok := UpdateStatus();
      if !ok {
        return Never, true;
      }
      ok := Invoke();
      if ok && db.sts.Some? && db.sts.value.replicas == Some(0) {
        ok := Scale(1);
      }
      return In(30), false;
    }

    method PreUpdateBackupStep(i: Inputs) returns (requeue: Requeue, done: bool, err: bool)
      modifies this
      ensures BackupRet(Here(), requeue, done, err) == DrivePreUpdateBackup(old(Here()), i)
    {
      var ok := Invoke();
      if !ok {
        return Never, false, true;
      }
      if db.sts.None? {
        return Never, true, false;
      }
      if db.sts.value.replicas != Some(0) {
        ok := Scale(0);
        return if ok then In(5) else Never, false, !ok;
      }
      ok := Invoke();
      if !ok {
        return Never, false, true;
      }
      if db.pods > 0 {
        return In(5), false, false;
      }
      var creds := GetCredentials();
      if !creds.Usable? {
        return Never, false, true;
      }
      ok := Mirror(creds.creds);
      if !ok {
        return Never, false, true;
      }
      requeue, done, err := PreUpdateJobStep(i, creds.creds);
    }

    method PreUpdateJobStep(i: Inputs, creds: Credentials) returns (requeue: Requeue, done: bool, err: bool)
      modifies this
      ensures BackupRet(Here(), requeue, done, err) == PreUpdateJob(old(Here()), i, creds)
    {
      var ok := Invoke();
      if !ok {
        return Never, false, true;
      }
      if PreUpdateBackup !in db.jobs {
        ok := Create(PreUpdateBackup, BackupJob(creds, PreUpdatePath(inst.spec, i.stamp)));
        return if ok then In(10) else Never, false, !ok;
      }
      var verdict := IsJobFinished(db.jobs[PreUpdateBackup]);
      match verdict
      case Unfinished => return In(10), false, false;
      case Failed => return Never, false, true;
      case Completed => return Never, true, false;
    }

    method RecordPath()
      modifies this
      ensures Here() == RecordBackupPath(old(Here()))
    {
      var path := "";
      var ok := Invoke();
      if ok && PreUpdateBackup in db.jobs {
        var creds := GetCredentials();
        if creds.Usable? {
          path := LastBackupPath(db.jobs[PreUpdateBackup].args, creds.creds);
        }
      }
      SetUpdateStatus(inst.status.au.(backupPath := path));
    }

    method ApplyStep() returns (requeue: Requeue, err: bool)
      modifies this
      ensures Ret(Here(), requeue, err) == ApplyUpdate(old(Here()))
    {
      var pending := inst.status.au.pending;
      SetUpdateStatus(inst.status.au.(previous := inst.spec.tag, phase := ApplyingUpdate));
      var ok := UpdateStatus();
      if !ok {
        return Never, true;
      }
      ok := PatchImageTag(pending);
      if !ok {
        requeue, err := Abort(PatchFailed);
        return;
      }
      requeue, err := AfterPatchStep(pending);
    }

    method AfterPatchStep(pending: string) returns (requeue: Requeue, err: bool)
      modifies this
      ensures Ret(Here(), requeue, err) == AfterTagPatch(old(Here()), pending)
    {
      var ok;
      if NeedsBackup(inst.spec) {
        ok := Invoke();
        if ok && db.sts.Some? && db.sts.value.replicas == Some(0) {
          ok := Scale(1);
          if !ok {
            requeue, err := Abort(ScaleUpFailed);
            return;
          }
        }
      }
      if inst.spec.options.rollbackOnFailure {
        SetUpdateStatus(inst.status.au.(phase := HealthCheck, lastUpdate := Some(db.now)));
        EnterPhase(Provisioning);
        ok := UpdateStatus();
        if !ok {
          return Never, true;
        }
        Record(Applied(pending, false));
        return In(10), false;
      }
      SetUpdateStatus(inst.status.au.(
        current := pending, pending := "", phase := Idle, lastUpdate := Some(db.now),
        previous := "", backupPath := "", rollbacks := 0));
      EnterPhase(Provisioning);
      ok := UpdateStatus();
      if !ok {
        return Never, true;
      }
      Record(Applied(pending, true));
      return Now, false;
    }

    method HealthCheckStep() returns (requeue: Requeue, err: bool)
      modifies this
      ensures Ret(Here(), requeue, err) == DriveHealthCheck(old(Here()))
    {
      var ok := Invoke();
      if !ok {
        return Never, true;
      }
      if db.sts.None? {
        return In(10), false;
      }
      if db.sts.value.ready > 0 && db.sts.value.updated > 0 {
        var pending := inst.status.au.pending;
        SetUpdateStatus(inst.status.au.(
          current := pending, pending := "", phase := Idle, previous := "", backupPath := "", rollbacks := 0));
        EnterPhase(Running);
        ok := UpdateStatus();
        if !ok {
          return Never, true;
        }
        Record(Confirmed(pending));
        return Now, false;
      }
      if inst.status.au.lastUpdate.None? {
        SetUpdateStatus(inst.status.au.(lastUpdate := Some(db.now)));
      }
      if db.now - inst.status.au.lastUpdate.value < HealthCheckTimeout(inst.spec.options.healthCheckTimeout) {
        return In(10), false;
      }
      SetUpdateStatus(inst.status.au.(phase := RollingBack));
      EnterPhase(Updating);
      ok := UpdateStatus();
      if !ok {
        return Never, true;
      }
      Record(HealthCheckFailed(inst.status.au.pending));
      return Now, false;
    }

    method RollbackStep() returns (requeue: Requeue, err: bool)
      modifies this
      ensures Ret(Here(), requeue, err) == DriveRollback(old(Here()))
    {
      var au := inst.status.au;
      if au.previous == "" {
        requeue, err := Abort(NoPreviousVersion);
        return;
      }
      if au.backupPath != "" && inst.spec.options.persistence {
        var wait, done, failed := RestoreStep(au.backupPath);
        if !failed && !done {
          return wait, false;
        }
      }
      var ok := PatchImageTag(au.previous);
      if !ok {
        return Never, true;
      }
      requeue, err := RecordRollbackStep(au.previous);
    }

    method RecordRollbackStep(previous: string) returns (requeue: Requeue, err: bool)
      modifies this
      ensures Ret(Here(), requeue, err) == RecordRollback(old(Here()), previous)
    {
      var failed := inst.status.au.pending;
      SetUpdateStatus(inst.status.au.(
        failed := failed, pending := "", phase := Idle, backupPath := "", previous := "",
        rollbacks := inst.status.au.rollbacks + 1, current := previous));
      EnterPhase(Provisioning);
      var ok := UpdateStatus();
      if !ok {
        return Never, true;
      }
      Record(RolledBack(failed, previous));
      return Now, false;
    }

    method RestoreStep(backupPath: string) returns (requeue: Requeue, done: bool, err: bool)
      modifies this
      ensures BackupRet(Here(), requeue, done, err) == DriveRollbackRestore(old(Here()), backupPath)
    {
      var ok := Invoke();
      if !ok {
        return Never, false, true;
      }
      if db.sts.None? {
        return Never, true, false;
      }
      if db.sts.value.replicas != Some(0) {
        ok := Scale(0);
        return if ok then In(5) else Never, false, !ok;
      }
      ok := Invoke();
      if !ok {
        return Never, false, true;
      }
      if db.pods > 0 {
        return In(5), false, false;
      }
      var creds := GetCredentials();
      if !creds.Usable? {
        return Never, false, true;
      }
      ok := Mirror(creds.creds);
      if !ok {
        return Never, false, true;
      }
      requeue, done, err := RestoreJobStep(creds.creds, backupPath);
    }

    method RestoreJobStep(creds: Credentials, backupPath: string) returns (requeue: Requeue, done: bool, err: bool)
      modifies this
      ensures BackupRet(Here(), requeue, done, err) == RestoreJob(old(Here()), creds, backupPath)
    {
      var ok := Invoke();
      if !ok {
        return Never, false, true;
      }
      if RollbackRestore !in db.jobs {
        ok := Create(RollbackRestore, Job(RcloneArgs(creds, backupPath, false), []));
        return if ok then In(10) else Never, false, !ok;
      }
      var verdict := IsJobFinished(db.jobs[RollbackRestore]);
      match verdict
      case Unfinished => return In(10), false, false;
      case Failed => return Never, false, true;
      case Completed => return Never, true, false;
    }

    method UpdateStep(i: Inputs) returns (requeue: Requeue, err: bool)
      modifies this
      ensures Ret(Here(), requeue, err) == DriveUpdateStateMachine(old(Here()), i)
    {
      if inst.status.au.phase.HealthCheck? {
        requeue, err := HealthCheckStep();
        return;
      }
      if inst.status.au.phase.RollingBack? {
        requeue, err := RollbackStep();
        return;
      }
      if !inst.status.phase.Updating? {
        EnterPhase(Updating);
        var ok := UpdateStatus();
        return if ok then Now else Never, !ok;
      }
      if NeedsBackup(inst.spec) && (inst.status.au.phase.Idle? || inst.status.au.phase.BackingUp?) {
        requeue, err := BackUpFirstStep(i);
      } else {
        requeue, err := ApplyStep();
      }
    }

    method BackUpFirstStep(i: Inputs) returns (requeue: Requeue, err: bool)
      modifies this
      ensures Ret(Here(), requeue, err) == BackUpFirst(old(Here()), i)
    {
      var wait, done, failed := PreUpdateBackupStep(i);
      if failed {
        requeue, err := Abort(BackupFailed);
        return;
      }
      if done {
        RecordPath();
        requeue, err := ApplyStep();
        return;
      }
      SetUpdateStatus(inst.status.au.(phase := BackingUp));
      var ok := UpdateStatus();
      return if ok then wait else Never, !ok;
    }

    /** The registry's answer, found by the resolver's selection loop. */
    method AskRegistry(i: Inputs) returns (answer: Option<string>)
      ensures answer == LatestVersion(Here(), i)
    {
      if !i.registryUp {
        return None;
      }
      answer := Semver.LatestSemver(i.parse, None, db.tags);
    }

    method AutoUpdateStep(i: Inputs) returns (requeue: Requeue, err: bool)
      modifies this
      ensures Ret(Here(), requeue, err) == ReconcileAutoUpdate(old(Here()), i)
    {
      if inst.status.au.pending != "" {
        requeue, err := UpdateStep(i);
        return;
      }
      if !IsAutoUpdateEnabled(inst.spec) || !i.resolver {
        return Never, false;
      }
      if inst.status.au.rollbacks >= MAX_ROLLBACKS {
        return Never, false;
      }
      if !ShouldCheckForUpdate(inst, db.now) {
        return Never, false;
      }
      requeue, err := CheckStep(i);
    }

    method CheckStep(i: Inputs) returns (requeue: Requeue, err: bool)
      modifies this
      ensures Ret(Here(), requeue, err) == CheckForUpdate(old(Here()), i)
    {
      var answer := AskRegistry(i);
      SetUpdateStatus(inst.status.au.(lastCheck := Some(db.now)));
      if answer.None? {
        return Never, false;
      }
      var version := answer.value;
      SetUpdateStatus(inst.status.au.(latest := version));
      if inst.spec.tag == "" || inst.spec.tag == "latest" {
        var ok := PatchImageTag(version);
        if !ok {
          return Never, true;
        }
        SetUpdateStatus(inst.status.au.(current := version));
        Record(TagResolved(version));
        return Now, false;
      }
      requeue := CompareStep(i, version);
      err := false;
    }

    method CompareStep(i: Inputs, version: string) returns (requeue: Requeue)
      modifies this
      ensures Ret(Here(), requeue, false) == CompareVersions(old(Here()), i, version)
    {
      var tag := inst.spec.tag;
      if i.parse(tag).None? || i.parse(version).None? {
        return Never;
      }
      SetUpdateStatus(inst.status.au.(current := tag));
      if !Semver.Below(i.parse(tag).value, i.parse(version).value) {
        return Never;
      }
      var failed := inst.status.au.failed;
      if failed != "" {
        var failedVersion := i.parse(failed);
        if failedVersion.Some? && Semver.Below(failedVersion.value, i.parse(version).value) {
          SetUpdateStatus(inst.status.au.(failed := ""));
        }
      }
      if inst.status.au.failed == version {
        return Never;
      }
      Record(Available(version, tag));
      SetUpdateStatus(inst.status.au.(pending := version, phase := Idle));
      return Now;
    }

    method ResolveTagStep(i: Inputs) returns (requeue: Requeue, err: bool)
      modifies this
      ensures Ret(Here(), requeue, err) == ResolveInitialTag(old(Here()), i)
    {
      if !IsAutoUpdateEnabled(inst.spec) || inst.spec.tag != "latest" || !i.resolver {
        return Never, false;
      }
      var answer := AskRegistry(i);
      if answer.None? {
        return Never, false;
      }
      var ok := PatchImageTag(answer.value);
      if !ok {
        return Never, true;
      }
      SetUpdateStatus(inst.status.au.(current := answer.value));
      ok := UpdateStatus();
      if !ok {
        return Never, true;
      }
      Record(TagResolved(answer.value));
      return Now, false;
    }

    // ----- backup.go -----

    method DropFinalizer() returns (err: bool)
      modifies this
      ensures Ret(Here(), Never, err) == RemoveFinalizer(old(Here()))
    {
      inst := inst.(spec := inst.spec.(finalizer := false));
      var ok := Invoke();
      if ok {
        db := db.(inst := db.inst.(spec := db.inst.spec.(finalizer := false)));
      }
      err := !ok;
    }

    method Finish() returns (err: bool)
      modifies this
      ensures Ret(Here(), Never, err) == Terminate(old(Here()))
    {
      EnterPhase(Terminating);
      var ok := UpdateStatus();
      if !ok {
        return true;
      }
      err := DropFinalizer();
    }

    method SetSince(t: Option<int>)
      modifies this`inst
      ensures Here() == SetBackingUpSince(old(Here()), t)
    {
      inst := inst.(status := inst.status.(backingUpSince := t));
    }

    method DeleteStep(i: Inputs) returns (requeue: Requeue, err: bool)
      modifies this
      ensures Ret(Here(), requeue, err) == ReconcileDeleteWithBackup(old(Here()), i)
    {
      requeue := Never;
      if inst.spec.skipBackup || !inst.spec.options.persistence {
        err := Finish();
        return;
      }
      if !inst.status.phase.BackingUpPhase? && !inst.status.phase.Terminating? {
        EnterPhase(BackingUpPhase);
        SetSince(Some(db.now));
        var ok := UpdateStatus();
        if !ok {
          return Never, true;
        }
      }
      if inst.status.backingUpSince.Some?
         && db.now - inst.status.backingUpSince.value >= BackupTimeout(inst.spec.options.backupTimeout) {
        Record(BackupTimedOut);
        SetSince(None);
        err := Finish();
        return;
      }
      requeue, err := QuiesceStep(i);
    }

    method QuiesceStep(i: Inputs) returns (requeue: Requeue, err: bool)
      modifies this
      ensures Ret(Here(), requeue, err) == ScaleDownForDeletion(old(Here()), i)
    {
      var ok := Invoke();
      if !ok {
        return Never, true;
      }
      if db.sts.Some? {
        if db.sts.value.replicas != Some(0) {
          ok := Scale(0);
          return if ok then In(5) else Never, !ok;
        }
        ok := Invoke();
        if !ok {
          return Never, true;
        }
        if db.pods > 0 {
          return In(5), false;
        }
      }
      requeue, err := DeletionBackupStep(i);
    }

    method DeletionBackupStep(i: Inputs) returns (requeue: Requeue, err: bool)
      modifies this
      ensures Ret(Here(), requeue, err) == BackUpForDeletion(old(Here()), i)
    {
      requeue := Never;
      var creds := GetCredentials();
      if creds.Missing? {
        Record(BackupSkipped);
        err := Finish();
        return;
      }
      if creds.Unusable? {
        return In(30), false;
      }
      var ok := Mirror(creds.creds);
      if !ok {
        return Never, true;
      }
      requeue, err := DeletionJobStep(i, creds.creds);
    }

    method DeletionJobStep(i: Inputs, creds: Credentials) returns (requeue: Requeue, err: bool)
      modifies this
      ensures Ret(Here(), requeue, err) == DeletionJob(old(Here()), i, creds)
    {
      requeue := Never;
      var ok := Invoke();
      if !ok {
        return Never, true;
      }
      if DeletionBackup !in db.jobs {
        requeue, err := StartBackupStep(i, creds);
        return;
      }
      var verdict := IsJobFinished(db.jobs[DeletionBackup]);
      match verdict
      case Unfinished => return In(10), false;
      case Failed =>
        ok := UpdateStatus();
        return if ok then In(30) else Never, !ok;
      case Completed =>
        Record(BackupComplete(inst.status.lastBackupPath));
        SetSince(None);
        err := Finish();
    }

    method StartBackupStep(i: Inputs, creds: Credentials) returns (requeue: Requeue, err: bool)
      modifies this
      ensures Ret(Here(), requeue, err) == StartDeletionBackup(old(Here()), i, creds)
    {
      var ok;
      if inst.status.lastBackupPath == "" {
        inst := inst.(status := inst.status.(lastBackupPath := DeletionPath(inst.spec, i.stamp)));
        ok := UpdateStatus();
        if !ok {
          return Never, true;
        }
      }
      var path := inst.status.lastBackupPath;
      ok := Create(DeletionBackup, BackupJob(creds, path));
      if !ok {
        return Never, true;
      }
      Record(BackupStarted(path));
      return In(10), false;
    }

    // ----- openclawinstance_controller.go -----

    method WriteResources() returns (ok: bool)
      modifies this
      ensures Reply(Here(), ok) == ReconcileResources(old(Here()))
    {
      ok := Invoke();
      if !ok {
        return;
      }
      ok := Invoke();
      if !ok {
        return;
      }
      db := db.(sts := Some(DesiredStatefulSet(inst.spec, db.sts)));
      ok := Invoke();
    }

    method WriteIfNew(saved: Status, i: Inputs) returns (ok: bool)
      modifies this
      ensures Reply(Here(), ok) == WriteIfChanged(old(Here()), saved, i)
    {
      ok := true;
      if inst.status != saved || i.conditionsChanged {
        ok := UpdateStatus();
      }
    }

    method RestStep(saved: Status, i: Inputs) returns (requeue: Requeue, err: bool)
      modifies this
      ensures Ret(Here(), requeue, err) == ReconcileRest(old(Here()), saved, i)
    {
      var ok := WriteResources();
      if !ok {
        EnterPhase(FailedPhase);
        var _ := UpdateStatus();
        return In(120), true;
      }
      if inst.spec.suspended {
        EnterPhase(Suspended);
        ok := WriteIfNew(saved, i);
        return if ok then In(300) else Never, !ok;
      }
      var ready := db.sts.Some? && db.sts.value.ready > 0;
      EnterPhase(if !ready then Provisioning else if i.packsFailed then Degraded else Running);
      var wait, _ := AutoUpdateStep(i);
      ok := WriteIfNew(saved, i);
      if !ok {
        return Never, true;
      }
      var delay := if ready then 300 else 10;
      if wait.Now? {
        return Now, false;
      }
      if wait.In? && wait.seconds < delay {
        return wait, false;
      }
      return In(delay), false;
    }

    method ProvisionedStep(i: Inputs) returns (requeue: Requeue, err: bool)
      modifies this
      ensures Ret(Here(), requeue, err) == ReconcileProvisioned(old(Here()), i)
    {
      var saved := inst.status;
      if inst.status.au.pending != "" && !inst.spec.suspended {
        var wait, _ := AutoUpdateStep(i);
        if !wait.Never? {
          var ok := UpdateStatus();
          return if ok then wait else Never, !ok;
        }
      }
      requeue, err := RestStep(saved, i);
    }

    /** One whole Reconcile on a fresh copy of the instance, whatever becomes of its calls: it keeps the
        invariant behind the circuit breaker and the single deletion path, lets a deleted instance go
        only for a reason, and, with the breaker open, leaves the tag alone. */
    method ReconcileInstance(i: Inputs) returns (requeue: Requeue, err: bool)
      requires inst == db.inst
      modifies this
      ensures Ret(Here(), requeue, err) == Reconcile(old(db), i, old(fate))
      ensures forall p :: Resilience.Sound(p, old(db)) ==> Resilience.Sound(p, db)
      ensures old(db).inst.spec.deleting && old(db).inst.spec.finalizer ==>
                db.inst.spec.finalizer || DeletionDeadline.Justified(old(db))
      ensures Resilience.Sound("", old(db)) && Resilience.Paused(old(db)) ==> db.inst.spec.tag == old(db).inst.spec.tag
    {
      ghost var c, f := db, fate;
      assert Here() == World(c, c.inst, f);
      requeue, err := ReconcileOnce(i);
      Outcomes(c, i, f);
    }

    /** One whole Reconcile. */
    method ReconcileOnce(i: Inputs) returns (requeue: Requeue, err: bool)
      modifies this
      ensures Ret(Here(), requeue, err) == ReconcileWorld(old(Here()), i)
    {
      if Gone(inst.spec) {
        return Never, false;
      }
      var ok := Invoke();
      if !ok {
        return Never, true;
      }
      if inst.spec.deleting {
        requeue, err := DeleteStep(i);
        return;
      }
      if !inst.spec.finalizer {
        ok := Invoke();
        if ok {
          db := WithSpec(db, db.inst.spec.(finalizer := true));
        }
        return if ok then Now else Never, !ok;
      }
      if inst.status.phase.Unset? {
        EnterPhase(Pending);
        ok := UpdateStatus();
        return if ok then Now else Never, !ok;
      }
      if inst.status.phase.Pending? {
        EnterPhase(Provisioning);
        ok := UpdateStatus();
        if !ok {
          return Never, true;
        }
        requeue, err := ResolveTagStep(i);
        if err || requeue.Now? {
          return;
        }
      }
      requeue, err := ProvisionedStep(i);
    }
  }

  lemma {:induction false} Outcomes(c: Cluster, i: Inputs, fate: Fate)
    ensures var end := Reconcile(c, i, fate).w.db;
            && (forall p :: Resilience.Sound(p, c) ==> Resilience.Sound(p, end))
            && (c.inst.spec.deleting && c.inst.spec.finalizer ==> end.inst.spec.finalizer || DeletionDeadline.Justified(c))
            && (Resilience.Sound("", c) && Resilience.Paused(c) ==> end.inst.spec.tag == c.inst.spec.tag)
  {
    forall p | Resilience.Sound(p, c) ensures Resilience.Sound(p, Reconcile(c, i, fate).w.db) {
      Resilience.ReconcileSound(p, c, i, fate);
    }
    if c.inst.spec.deleting && c.inst.spec.finalizer {
      DeletionDeadline.FinalizerGoesForAReason(c, i, fate);
    }
    if Resilience.Sound("", c) && Resilience.Paused(c) {
      Resilience.ReconcilePaused(c, i, fate);
    }
  }

  /** The operator at work on one instance: an event at a time, with a controller for every reconcile. What
      it leaves behind is what the theorems about runs are about. */
  method Operate(c: Cluster, events: seq<Event>) returns (end: Cluster)
    ensures end == Run(c, events)
    ensures Initial(c) ==>
      && 0 <= end.inst.status.au.rollbacks <= MAX_ROLLBACKS
      && (end.inst.status.au.pending != "" ==> end.inst.status.au.rollbacks < MAX_ROLLBACKS)
      && end.inst.status.au.backupPath == "" && RollbackRestore !in end.jobs
    ensures forall parse :: StopSafety.NoErrors(parse, c, events) && StopSafety.SecretsKept(c, events) ==>
      (JobUnfinished(end, PreUpdateBackup) ==> UpdateSafety.ScaledDown(end))
  {
    end := c;
    for n := 0 to |events|
      invariant end == Run(c, events[..n])
    {
      assert events[..n + 1][..n] == events[..n];
      var e := events[n];
      if e.Reconciled? {
        var controller := new InstanceReconciler(end, e.fate);
        var _, _ := controller.ReconcileInstance(e.input);
        end := controller.db;
      } else if Enabled(end, e) {
        end := Apply(end, e);
      }
    }
    assert events[..|events|] == events;
    RunOutcomes(c, events);
  }

  lemma {:induction false} RunOutcomes(c: Cluster, events: seq<Event>)
    ensures var end := Run(c, events);
            && (Initial(c) ==>
                  && 0 <= end.inst.status.au.rollbacks <= MAX_ROLLBACKS
                  && (end.inst.status.au.pending != "" ==> end.inst.status.au.rollbacks < MAX_ROLLBACKS)
                  && end.inst.status.au.backupPath == "" && RollbackRestore !in end.jobs)
            && (forall parse :: StopSafety.NoErrors(parse, c, events) && StopSafety.SecretsKept(c, events) ==>
                  (JobUnfinished(end, PreUpdateBackup) ==> UpdateSafety.ScaledDown(end)))
  {
    if Initial(c) {
      Resilience.CircuitBreaker(c, events);
      Resilience.BackupPathIsNeverRecorded(c, events);
    }
    forall parse | StopSafety.NoErrors(parse, c, events) && StopSafety.SecretsKept(c, events)
      ensures JobUnfinished(Run(c, events), PreUpdateBackup) ==> UpdateSafety.ScaledDown(Run(c, events))
    {
      StopSafety.NothingRunsDuringBackup(parse, c, events);
    }
  }
}
