/** The update state machine of internal/controller/autoupdate.go, as transitions of a World.
    Every function follows its Go namesake call by call, error paths included. */
module AutoUpdate {
  import opened Wrappers
  import opened Rclone
  import opened Cluster
  import Semver

  const MAX_ROLLBACKS := 3

  /** What one reconcile gets from outside besides API replies. */
  datatype Inputs = Inputs(
    parse: Semver.Parser, resolver: bool, registryUp: bool,
    stamp: string, packsFailed: bool, conditionsChanged: bool)

  predicate IsAutoUpdateEnabled(spec: Spec) {
    spec.options.enabled && !spec.options.digestPinned
  }

  predicate NeedsBackup(spec: Spec) {
    spec.options.backupBeforeUpdate && spec.options.persistence
  }

  predicate ShouldCheckForUpdate(inst: Instance, now: int) {
    inst.status.au.lastCheck.None?
    || now - inst.status.au.lastCheck.value >= CheckInterval(inst.spec.options.checkInterval)
  }

  /** The registry's answer, or None for an error. */
  function LatestVersion(w: World, i: Inputs): Option<string> {
    if i.registryUp then Semver.Answer(i.parse, None, w.db.tags) else None
  }

  // ----- abort -----

  function AbortUpdate(w: World, reason: Reason): Ret {
    var w := SetPhase(SetAutoUpdate(w, w.inst.status.au.(pending := "", phase := Idle)), Running);
    var w := Emit(w, Aborted(reason));
    var Reply(w, ok) := WriteStatus(w);
    if !ok then Ret(w, Never, true)
    else
      var Reply(w, ok) := Call(w);
      if ok && w.db.sts.Some? && w.db.sts.value.replicas == Some(0)
      then Ret(PatchReplicas(w, 1).w, In(30), false)
      else Ret(w, In(30), false)
  }

  // ----- pre-update backup -----

  function DrivePreUpdateBackup(w: World, i: Inputs): BackupRet {
    var Reply(w, ok) := Call(w);
    if !ok then BackupRet(w, Never, false, true)
    else if w.db.sts.None? then BackupRet(w, Never, true, false)
    else if w.db.sts.value.replicas != Some(0) then
      var Reply(w, ok) := PatchReplicas(w, 0);
      BackupRet(w, if ok then In(5) else Never, false, !ok)
    else AwaitTermination(w, i)
  }

  function AwaitTermination(w: World, i: Inputs): BackupRet {
    var Reply(w, ok) := Call(w);
    if !ok then BackupRet(w, Never, false, true)
    else if w.db.pods > 0 then BackupRet(w, In(5), false, false)
    else PreUpdateCredentials(w, i)
  }

  function PreUpdateCredentials(w: World, i: Inputs): BackupRet {
    var (w, creds) := ReadCredentials(w);
    if !creds.Usable? then BackupRet(w, Never, false, true)
    else
      var Reply(w, ok) := MirrorSecret(w, creds.creds);
      if !ok then BackupRet(w, Never, false, true) else PreUpdateJob(w, i, creds.creds)
  }

  function PreUpdatePath(spec: Spec, stamp: string): string {
    "backups/" + spec.tenant + "/" + spec.name + "/pre-update-" + stamp
  }

  function StartPreUpdateJob(w: World, creds: Credentials, path: string): BackupRet {
    var Reply(w, ok) := CreateJob(w, PreUpdateBackup, BackupJob(creds, path));
    BackupRet(w, if ok then In(10) else Never, false, !ok)
  }

  /** Create the backup Job, or look at the one that exists. */
  function PreUpdateJob(w: World, i: Inputs, creds: Credentials): BackupRet {
    var Reply(w, ok) := Call(w);
    if !ok then BackupRet(w, Never, false, true)
    else if PreUpdateBackup !in w.db.jobs then StartPreUpdateJob(w, creds, PreUpdatePath(w.inst.spec, i.stamp))
    else match VerdictOf(w.db.jobs[PreUpdateBackup].conditions)
      case Unfinished => BackupRet(w, In(10), false, false)
      case Failed => BackupRet(w, Never, false, true)
      case Completed => BackupRet(w, Never, true, false)
  }
  /** Record where the backup went, as far as the Job's arguments tell. */
  function RecordBackupPath(w: World): World {
    var Reply(w, ok) := Call(w);
    if !ok || PreUpdateBackup !in w.db.jobs then
      SetAutoUpdate(w, w.inst.status.au.(backupPath := ""))
    else
      var (w, creds) := ReadCredentials(w);
      var path := if creds.Usable? then LastBackupPath(w.db.jobs[PreUpdateBackup].args, creds.creds) else "";
      SetAutoUpdate(w, w.inst.status.au.(backupPath := path))
  }

  // ----- applying the update -----

  function ApplyUpdate(w: World): Ret {
    var pending := w.inst.status.au.pending;
    var w := SetAutoUpdate(w, w.inst.status.au.(previous := w.inst.spec.tag, phase := ApplyingUpdate));
    var Reply(w, ok) := WriteStatus(w);
    if !ok then Ret(w, Never, true)
    else
      var Reply(w, ok) := PatchTag(w, pending);
      if !ok then AbortUpdate(w, PatchFailed) else AfterTagPatch(w, pending)
  }

  function AfterTagPatch(w: World, pending: string): Ret {
    var Reply(w, ok) := ScaleBackUp(w);
    if !ok then AbortUpdate(w, ScaleUpFailed)
    else if w.inst.spec.options.rollbackOnFailure then StartHealthCheck(w, pending)
    else FinishWithoutHealthCheck(w, pending)
  }

  /** Undo the scale-down of the backup; only a failing patch counts as an error. */
  function ScaleBackUp(w: World): Reply {
    if !NeedsBackup(w.inst.spec) then Reply(w, true)
    else
      var Reply(w, ok) := Call(w);
      if ok && w.db.sts.Some? && w.db.sts.value.replicas == Some(0) then PatchReplicas(w, 1)
      else Reply(w, true)
  }

  function StartHealthCheck(w: World, pending: string): Ret {
    var w := SetAutoUpdate(w, w.inst.status.au.(phase := HealthCheck, lastUpdate := Some(w.db.now)));
    var Reply(w, ok) := WriteStatus(SetPhase(w, Provisioning));
    if !ok then Ret(w, Never, true) else Ret(Emit(w, Applied(pending, false)), In(10), false)
  }

  function FinishWithoutHealthCheck(w: World, pending: string): Ret {
    var w := SetAutoUpdate(w, w.inst.status.au.(
      current := pending, pending := "", phase := Idle, lastUpdate := Some(w.db.now),
      previous := "", backupPath := "", rollbacks := 0));
    var Reply(w, ok) := WriteStatus(SetPhase(w, Provisioning));
    if !ok then Ret(w, Never, true) else Ret(Emit(w, Applied(pending, true)), Now, false)
  }

  // ----- health check -----

  function DriveHealthCheck(w: World): Ret {
    var Reply(w, ok) := Call(w);
    if !ok then Ret(w, Never, true)
    else if w.db.sts.None? then Ret(w, In(10), false)
    else if w.db.sts.value.ready > 0 && w.db.sts.value.updated > 0 then ConfirmUpdate(w)
    else
      var since := if w.inst.status.au.lastUpdate.Some? then w.inst.status.au.lastUpdate.value else w.db.now;
      var w := SetAutoUpdate(w, w.inst.status.au.(lastUpdate := Some(since)));
      if w.db.now - since < HealthCheckTimeout(w.inst.spec.options.healthCheckTimeout) then Ret(w, In(10), false)
      else
        var w := SetAutoUpdate(w, w.inst.status.au.(phase := RollingBack));
        var Reply(w, ok) := WriteStatus(SetPhase(w, Updating));
        if !ok then Ret(w, Never, true)
        else Ret(Emit(w, HealthCheckFailed(w.inst.status.au.pending)), Now, false)
  }

  function ConfirmUpdate(w: World): Ret {
    var pending := w.inst.status.au.pending;
    var w := SetAutoUpdate(w, w.inst.status.au.(
      current := pending, pending := "", phase := Idle, previous := "", backupPath := "", rollbacks := 0));
    var Reply(w, ok) := WriteStatus(SetPhase(w, Running));
    if !ok then Ret(w, Never, true) else Ret(Emit(w, Confirmed(pending)), Now, false)
  }

  // ----- rollback -----

  function DriveRollback(w: World): Ret {
    var au := w.inst.status.au;
    if au.previous == "" then AbortUpdate(w, NoPreviousVersion)
    else if au.backupPath != "" && w.inst.spec.options.persistence then
      var r := DriveRollbackRestore(w, au.backupPath);
      if !r.err && !r.done then Ret(r.w, r.requeue, false) else RevertTag(r.w, au.previous)
    else RevertTag(w, au.previous)
  }

  function RevertTag(w: World, previous: string): Ret {
    var Reply(w, ok) := PatchTag(w, previous);
    if !ok then Ret(w, Never, true) else RecordRollback(w, previous)
  }

  function RecordRollback(w: World, previous: string): Ret {
    var au := w.inst.status.au;
    var failed := au.pending;
    var w := SetAutoUpdate(w, au.(
      failed := failed, pending := "", phase := Idle, backupPath := "", previous := "",
      rollbacks := au.rollbacks + 1, current := previous));
    var Reply(w, ok) := WriteStatus(SetPhase(w, Provisioning));
    if !ok then Ret(w, Never, true) else Ret(Emit(w, RolledBack(failed, previous)), Now, false)
  }

  function DriveRollbackRestore(w: World, backupPath: string): BackupRet {
    var Reply(w, ok) := Call(w);
    if !ok then BackupRet(w, Never, false, true)
    else if w.db.sts.None? then BackupRet(w, Never, true, false)
    else if w.db.sts.value.replicas != Some(0) then
      var Reply(w, ok) := PatchReplicas(w, 0);
      BackupRet(w, if ok then In(5) else Never, false, !ok)
    else
      var Reply(w, ok) := Call(w);
      if !ok then BackupRet(w, Never, false, true)
      else if w.db.pods > 0 then BackupRet(w, In(5), false, false)
      else
        var (w, creds) := ReadCredentials(w);
        if !creds.Usable? then BackupRet(w, Never, false, true)
        else
          var Reply(w, ok) := MirrorSecret(w, creds.creds);
          if !ok then BackupRet(w, Never, false, true) else RestoreJob(w, creds.creds, backupPath)
  }

  function RestoreJob(w: World, creds: Credentials, backupPath: string): BackupRet {
    var Reply(w, ok) := Call(w);
    if !ok then BackupRet(w, Never, false, true)
    else if RollbackRestore !in w.db.jobs then
      var Reply(w, ok) := CreateJob(w, RollbackRestore, Job(RcloneArgs(creds, backupPath, false), []));
      BackupRet(w, if ok then In(10) else Never, false, !ok)
    else match VerdictOf(w.db.jobs[RollbackRestore].conditions)
      case Unfinished => BackupRet(w, In(10), false, false)
      case Failed => BackupRet(w, Never, false, true)
      case Completed => BackupRet(w, Never, true, false)
  }

  // ----- the state machine -----

  function DriveUpdateStateMachine(w: World, i: Inputs): Ret {
    var au := w.inst.status.au;
    if au.phase.HealthCheck? then DriveHealthCheck(w)
    else if au.phase.RollingBack? then DriveRollback(w)
    else if !w.inst.status.phase.Updating? then
      var Reply(w, ok) := WriteStatus(SetPhase(w, Updating));
      if !ok then Ret(w, Never, true) else Ret(w, Now, false)
    else if NeedsBackup(w.inst.spec) && (au.phase.Idle? || au.phase.BackingUp?) then BackUpFirst(w, i)
    else ApplyUpdate(w)
  }

  function BackUpFirst(w: World, i: Inputs): Ret {
    var b := DrivePreUpdateBackup(w, i);
    if b.err then AbortUpdate(b.w, BackupFailed)
    else if b.done then ApplyUpdate(RecordBackupPath(b.w))
    else
      var w := SetAutoUpdate(b.w, b.w.inst.status.au.(phase := BackingUp));
      var Reply(w, ok) := WriteStatus(w);
      if !ok then Ret(w, Never, true) else Ret(w, b.requeue, false)
  }

  // ----- version check -----

  function ReconcileAutoUpdate(w: World, i: Inputs): Ret {
    if w.inst.status.au.pending != "" then DriveUpdateStateMachine(w, i)
    else if !IsAutoUpdateEnabled(w.inst.spec) || !i.resolver then Ret(w, Never, false)
    else if w.inst.status.au.rollbacks >= MAX_ROLLBACKS then Ret(w, Never, false)
    else if !ShouldCheckForUpdate(w.inst, w.db.now) then Ret(w, Never, false)
    else CheckForUpdate(w, i)
  }

  function CheckForUpdate(w: World, i: Inputs): Ret {
    var answer := LatestVersion(w, i);
    var w := SetAutoUpdate(w, w.inst.status.au.(lastCheck := Some(w.db.now)));
    if answer.None? then Ret(w, Never, false)
    else
      var version := answer.value;
      var w := SetAutoUpdate(w, w.inst.status.au.(latest := version));
      if w.inst.spec.tag == "" || w.inst.spec.tag == "latest" then ResolveLatest(w, version)
      else CompareVersions(w, i, version)
  }

  function ResolveLatest(w: World, version: string): Ret {
    var Reply(w, ok) := PatchTag(w, version);
    if !ok then Ret(w, Never, true)
    else Ret(Emit(SetAutoUpdate(w, w.inst.status.au.(current := version)), TagResolved(version)), Now, false)
  }

  function CompareVersions(w: World, i: Inputs, version: string): Ret {
    var tag := w.inst.spec.tag;
    if i.parse(tag).None? || i.parse(version).None? then Ret(w, Never, false)
    else
      var w := SetAutoUpdate(w, w.inst.status.au.(current := tag));
      if !Semver.Below(i.parse(tag).value, i.parse(version).value) then Ret(w, Never, false)
      else ConsiderVersion(w, i, version)
  }

  /** A newer version exists: forget an older failure, skip a version that failed before, else start. */
  function ConsiderVersion(w: World, i: Inputs, version: string): Ret
    requires i.parse(version).Some?
  {
    var au := w.inst.status.au;
    var failedVersion := i.parse(au.failed);
    var failed := if au.failed != "" && failedVersion.Some?
                     && Semver.Below(failedVersion.value, i.parse(version).value)
                  then "" else au.failed;
    var w := SetAutoUpdate(w, au.(failed := failed));
    if failed == version then Ret(w, Never, false)
    else
      var w := Emit(w, Available(version, w.inst.spec.tag));
      Ret(SetAutoUpdate(w, w.inst.status.au.(pending := version, phase := Idle)), Now, false)
  }

  /** resolveInitialTag; `requeue` is Now exactly when the tag was resolved. */
  function ResolveInitialTag(w: World, i: Inputs): Ret {
    if !IsAutoUpdateEnabled(w.inst.spec) || w.inst.spec.tag != "latest" || !i.resolver then Ret(w, Never, false)
    else
      var answer := LatestVersion(w, i);
      if answer.None? then Ret(w, Never, false)
      else
        var Reply(w, ok) := PatchTag(w, answer.value);
        if !ok then Ret(w, Never, true)
        else
          var w := SetAutoUpdate(w, w.inst.status.au.(current := answer.value));
          var Reply(w, ok) := WriteStatus(w);
          if !ok then Ret(w, Never, true) else Ret(Emit(w, TagResolved(answer.value)), Now, false)
  }
}
