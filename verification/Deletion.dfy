/** Deletion with a final backup (internal/controller/backup.go). */
module Deletion {
  import opened Wrappers
  import opened Rclone
  import opened Cluster
  import opened AutoUpdate

  function RemoveFinalizer(w: World): Ret {
    var w := w.(inst := w.inst.(spec := w.inst.spec.(finalizer := false)));
    var Reply(w, ok) := Commit(w, WithSpec(w.db, w.db.inst.spec.(finalizer := false)));
    Ret(w, Never, !ok)
  }

  /** Write the status, then let the object go. */
  function Terminate(w: World): Ret {
    var Reply(w, ok) := WriteStatus(SetPhase(w, Terminating));
    if !ok then Ret(w, Never, true) else RemoveFinalizer(w)
  }

  function SetBackingUpSince(w: World, t: Option<int>): World {
    w.(inst := w.inst.(status := w.inst.status.(backingUpSince := t)))
  }

  function ReconcileDeleteWithBackup(w: World, i: Inputs): Ret {
    if w.inst.spec.skipBackup || !w.inst.spec.options.persistence then Terminate(w)
    else if w.inst.status.phase.BackingUpPhase? || w.inst.status.phase.Terminating? then CheckDeadline(w, i)
    else
      var w := SetBackingUpSince(SetPhase(w, BackingUpPhase), Some(w.db.now));
      var Reply(w, ok) := WriteStatus(w);
      if !ok then Ret(w, Never, true) else CheckDeadline(w, i)
  }

  predicate DeadlinePassed(w: World) {
    && w.inst.status.backingUpSince.Some?
    && w.db.now - w.inst.status.backingUpSince.value >= BackupTimeout(w.inst.spec.options.backupTimeout)
  }

  function CheckDeadline(w: World, i: Inputs): Ret {
    if DeadlinePassed(w) then Terminate(SetBackingUpSince(Emit(w, BackupTimedOut), None))
    else ScaleDownForDeletion(w, i)
  }

  function ScaleDownForDeletion(w: World, i: Inputs): Ret {
    var Reply(w, ok) := Call(w);
    if !ok then Ret(w, Never, true)
    else if w.db.sts.None? then BackUpForDeletion(w, i)
    else if w.db.sts.value.replicas != Some(0) then
      var Reply(w, ok) := PatchReplicas(w, 0);
      if !ok then Ret(w, Never, true) else Ret(w, In(5), false)
    else AwaitPodsForDeletion(w, i)
  }

  function AwaitPodsForDeletion(w: World, i: Inputs): Ret {
    var Reply(w, ok) := Call(w);
    if !ok then Ret(w, Never, true)
    else if w.db.pods > 0 then Ret(w, In(5), false)
    else BackUpForDeletion(w, i)
  }

  function BackUpForDeletion(w: World, i: Inputs): Ret {
    var (w, creds) := ReadCredentials(w);
    if creds.Missing? then Terminate(Emit(w, BackupSkipped))
    else if creds.Unusable? then Ret(w, In(30), false)
    else
      var Reply(w, ok) := MirrorSecret(w, creds.creds);
      if !ok then Ret(w, Never, true) else DeletionJob(w, i, creds.creds)
  }

  function DeletionJob(w: World, i: Inputs, creds: Credentials): Ret {
    var Reply(w, ok) := Call(w);
    if !ok then Ret(w, Never, true)
    else if DeletionBackup !in w.db.jobs then StartDeletionBackup(w, i, creds)
    else AwaitDeletionJob(w, VerdictOf(w.db.jobs[DeletionBackup].conditions))
  }

  function AwaitDeletionJob(w: World, verdict: Verdict): Ret {
    match verdict
    case Unfinished => Ret(w, In(10), false)
    case Failed =>
      var Reply(w, ok) := WriteStatus(w);
      if !ok then Ret(w, Never, true) else Ret(w, In(30), false)
    case Completed =>
      Terminate(SetBackingUpSince(Emit(w, BackupComplete(w.inst.status.lastBackupPath)), None))
  }

  function DeletionPath(spec: Spec, stamp: string): string {
    "backups/" + spec.tenant + "/" + spec.name + "/" + stamp
  }

  /** The path is settled in the status before the Job that uses it exists. */
  function StartDeletionBackup(w: World, i: Inputs, creds: Credentials): Ret {
    var settled := w.inst.status.lastBackupPath != "";
    var path := if settled then w.inst.status.lastBackupPath else DeletionPath(w.inst.spec, i.stamp);
    var w := w.(inst := w.inst.(status := w.inst.status.(lastBackupPath := path)));
    var Reply(w, ok) := if settled then Reply(w, true) else WriteStatus(w);
    if !ok then Ret(w, Never, true) else CreateDeletionJob(w, creds, path)
  }

  function CreateDeletionJob(w: World, creds: Credentials, path: string): Ret {
    var Reply(w, ok) := CreateJob(w, DeletionBackup, BackupJob(creds, path));
    if !ok then Ret(w, Never, true) else Ret(Emit(w, BackupStarted(path)), In(10), false)
  }
}
