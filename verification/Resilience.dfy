/** Facts that hold in every run, whatever calls fail and wherever a reconcile is cut short:
    the circuit breaker, the lost backup path, and the single remote path of a deletion. */
module Resilience {
  import opened Wrappers
  import opened Rclone
  import opened Cluster
  import opened AutoUpdate
  import opened Deletion
  import opened Lifecycle
  import opened DeletionFrame

  /** What a status holds, whether it is stored or only in the controller's hands. */
  predicate SoundStatus(s: Status) {
    && 0 <= s.au.rollbacks <= MAX_ROLLBACKS
    && (s.au.pending != "" ==> s.au.rollbacks < MAX_ROLLBACKS)
    && (s.au.rollbacks > 0 ==> !s.phase.Unset? && !s.phase.Pending?)
    && s.au.backupPath == ""
  }

  /** The argument lists of the Jobs the controller has created. */
  ghost predicate SoundJobs(jobs: map<JobName, Job>, deletionPath: string) {
    && RollbackRestore !in jobs
    && (PreUpdateBackup in jobs ==> |jobs[PreUpdateBackup].args| >= 2 && jobs[PreUpdateBackup].args[1] == "/data/")
    && (DeletionBackup in jobs ==> deletionPath != "" && Targets(jobs[DeletionBackup].args, deletionPath))
  }

  /** These are the arguments of a backup to `path`, in whatever bucket. */
  ghost predicate Targets(args: seq<string>, path: string) {
    exists creds :: args == RcloneArgs(creds, path, true)
  }

  /** Every deletion backup ever started went to `path`. */
  predicate SinglePath(h: History, path: string) {
    match h
    case Start => true
    case After(past, notice) =>
      SinglePath(past, path) && (notice.BackupStarted? ==> notice.path == path && path != "")
  }

  /** The invariant; once a deletion path `p` is settled it stays. */
  ghost predicate Sound(p: string, c: Cluster) {
    && SoundStatus(c.inst.status)
    && SoundJobs(c.jobs, c.inst.status.lastBackupPath)
    && SinglePath(c.history, c.inst.status.lastBackupPath)
    && (p != "" ==> c.inst.status.lastBackupPath == p)
    && (c.inst.spec.deleting || LivePhase(c.inst.status.phase))
  }

  /** The phases of an instance that is not being deleted. */
  predicate LivePhase(p: Phase) {
    !p.BackingUpPhase? && !p.Terminating?
  }

  ghost predicate SoundWorld(p: string, w: World) {
    && Sound(p, w.db) && SoundStatus(w.inst.status)
    && w.inst.status.lastBackupPath == w.db.inst.status.lastBackupPath
    && (w.db.inst.spec.deleting || LivePhase(w.inst.status.phase))
  }

  // ----- one lemma per controller function -----

  lemma {:induction false} AbortSound(p: string, w: World, reason: Reason)
    requires SoundWorld(p, w) && w.inst.status.au.pending != ""
    ensures SoundWorld(p, AbortUpdate(w, reason).w)
  {
    var w1 := SetPhase(SetAutoUpdate(w, w.inst.status.au.(pending := "", phase := Idle)), Running);
    assert SoundWorld(p, w1);
    var w2 := Emit(w1, Aborted(reason));
    NoticeSound(p, w1, Aborted(reason));
    var Reply(w3, ok) := WriteStatus(w2);
    StatusSound(p, w2);
    if ok {
      var Reply(w4, got) := Call(w3);
      if got && w4.db.sts.Some? && w4.db.sts.value.replicas == Some(0) {
        ScaleSound(p, w4, 1);
      }
    }
  }

  lemma {:induction false} StatusSound(p: string, w: World)
    requires SoundWorld(p, w)
    ensures SoundWorld(p, WriteStatus(w).w)
  {
  }

  lemma {:induction false} BackupArguments(creds: Credentials, path: string)
    ensures var args := RcloneArgs(creds, path, true);
            |args| >= 3 && args[1] == "/data/" && args[2] == RemotePrefix(creds) + path && Targets(args, path)
  {
  }

  lemma {:induction false} PreUpdateJobSound(p: string, w: World, i: Inputs, creds: Credentials)
    requires SoundWorld(p, w)
    ensures SoundWorld(p, PreUpdateJob(w, i, creds).w)
    ensures PreUpdateJob(w, i, creds).w.inst.status.au.pending == w.inst.status.au.pending
  {
    var w1 := Call(w).w;
    if PreUpdateBackup !in w1.db.jobs {
      StartJobSound(p, w1, creds, PreUpdatePath(w1.inst.spec, i.stamp));
    }
  }

  lemma {:induction false} StartJobSound(p: string, w: World, creds: Credentials, path: string)
    requires SoundWorld(p, w)
    ensures SoundWorld(p, StartPreUpdateJob(w, creds, path).w)
    ensures StartPreUpdateJob(w, creds, path).w.inst.status.au.pending == w.inst.status.au.pending
  {
    BackupArguments(creds, path);
  }

  lemma {:induction false} PreUpdateCredentialsSound(p: string, w: World, i: Inputs)
    requires SoundWorld(p, w)
    ensures SoundWorld(p, PreUpdateCredentials(w, i).w)
    ensures PreUpdateCredentials(w, i).w.inst.status.au.pending == w.inst.status.au.pending
  {
    var (w1, creds) := ReadCredentials(w);
    ReadSound(p, w);
    if creds.Usable? {
      var w2 := MirrorSecret(w1, creds.creds).w;
      assert w2.db == w1.db && w2.inst == w1.inst;
      PreUpdateJobSound(p, w2, i, creds.creds);
    }
  }

  lemma {:induction false} ReadSound(p: string, w: World)
    requires SoundWorld(p, w)
    ensures SoundWorld(p, ReadCredentials(w).0) && ReadCredentials(w).0.inst == w.inst && ReadCredentials(w).0.db == w.db
  {
  }

  lemma {:induction false} BackupSound(p: string, w: World, i: Inputs)
    requires SoundWorld(p, w)
    ensures SoundWorld(p, DrivePreUpdateBackup(w, i).w)
    ensures DrivePreUpdateBackup(w, i).w.inst.status.au.pending == w.inst.status.au.pending
  {
    var Reply(w1, ok) := Call(w);
    if ok && w1.db.sts.Some? && w1.db.sts.value.replicas == Some(0) {
      AwaitSound(p, w1, i);
    } else if ok && w1.db.sts.Some? {
      ScaleSound(p, w1, 0);
    }
  }

  lemma {:induction false} ScaleSound(p: string, w: World, n: nat)
    requires SoundWorld(p, w) && w.db.sts.Some?
    ensures SoundWorld(p, PatchReplicas(w, n).w) && PatchReplicas(w, n).w.inst == w.inst
  {
  }

  lemma {:induction false} AwaitSound(p: string, w: World, i: Inputs)
    requires SoundWorld(p, w)
    ensures SoundWorld(p, AwaitTermination(w, i).w)
    ensures AwaitTermination(w, i).w.inst.status.au.pending == w.inst.status.au.pending
  {
    PreUpdateCredentialsSound(p, Call(w).w, i);
  }

  lemma {:induction false} RecordSound(p: string, w: World)
    requires SoundWorld(p, w)
    ensures SoundWorld(p, RecordBackupPath(w))
    ensures RecordBackupPath(w).inst.status.au.pending == w.inst.status.au.pending
  {
  }

  lemma {:induction false} ApplySound(p: string, w: World, i: Inputs)
    requires SoundWorld(p, w) && w.inst.status.au.pending != ""
    ensures SoundWorld(p, ApplyUpdate(w).w)
  {
    var pending := w.inst.status.au.pending;
    var w0 := SetAutoUpdate(w, w.inst.status.au.(previous := w.inst.spec.tag, phase := ApplyingUpdate));
    var Reply(w1, written) := WriteStatus(w0);
    WriteSound(p, w0, w.inst.status, i);
    if written {
      var Reply(w2, patched) := PatchTag(w1, pending);
      PatchTagSound(p, w1, pending);
      if patched {
        AfterPatchSound(p, w2, pending);
      } else {
        AbortSound(p, w2, PatchFailed);
      }
    }
  }

  lemma {:induction false} PatchTagSound(p: string, w: World, tag: string)
    requires SoundWorld(p, w)
    ensures SoundWorld(p, PatchTag(w, tag).w)
    ensures PatchTag(w, tag).w.inst.status == w.inst.status
  {
  }

  lemma {:induction false} AfterPatchSound(p: string, w: World, pending: string)
    requires SoundWorld(p, w) && w.inst.status.au.pending != ""
    ensures SoundWorld(p, AfterTagPatch(w, pending).w)
  {
    ScaleBackUpSound(p, w);
    var Reply(w1, ok) := ScaleBackUp(w);
    if !ok {
      AbortSound(p, w1, ScaleUpFailed);
    } else if w1.inst.spec.options.rollbackOnFailure {
      StartSound(p, w1, pending);
    } else {
      FinishSound(p, w1, pending);
    }
  }

  lemma {:induction false} ScaleBackUpSound(p: string, w: World)
    requires SoundWorld(p, w)
    ensures SoundWorld(p, ScaleBackUp(w).w)
    ensures ScaleBackUp(w).w.inst.status.au.pending == w.inst.status.au.pending
  {
  }

  lemma {:induction false} StartSound(p: string, w: World, pending: string)
    requires SoundWorld(p, w) && w.inst.status.au.pending != ""
    ensures SoundWorld(p, StartHealthCheck(w, pending).w)
  {
  }

  lemma {:induction false} FinishSound(p: string, w: World, pending: string)
    requires SoundWorld(p, w) && w.inst.status.au.pending != ""
    ensures SoundWorld(p, FinishWithoutHealthCheck(w, pending).w)
  {
  }

  lemma {:induction false} HealthCheckSound(p: string, w: World)
    requires SoundWorld(p, w) && w.inst.status.au.pending != ""
    ensures SoundWorld(p, DriveHealthCheck(w).w)
  {
    var Reply(w1, ok) := Call(w);
    if !ok || w1.db.sts.None? {
    } else if w1.db.sts.value.ready > 0 && w1.db.sts.value.updated > 0 {
      ConfirmSound(p, w1);
    } else {
      var since := if w1.inst.status.au.lastUpdate.Some? then w1.inst.status.au.lastUpdate.value else w1.db.now;
      var au := w1.inst.status.au.(lastUpdate := Some(since));
      UpdatingSound(p, w1, au);
      UpdatingSound(p, w1, au.(phase := RollingBack));
    }
  }

  lemma {:induction false} UpdatingSound(p: string, w: World, au: UpdateStatus)
    requires SoundWorld(p, w) && au.pending == w.inst.status.au.pending
    requires au.rollbacks == w.inst.status.au.rollbacks && au.backupPath == ""
    ensures SoundWorld(p, SetAutoUpdate(w, au))
    ensures SoundWorld(p, WriteStatus(SetPhase(SetAutoUpdate(w, au), Updating)).w)
  {
  }

  lemma {:induction false} ConfirmSound(p: string, w: World)
    requires SoundWorld(p, w) && w.inst.status.au.pending != ""
    ensures SoundWorld(p, ConfirmUpdate(w).w)
  {
  }

  lemma {:induction false} RollbackSound(p: string, w: World)
    requires SoundWorld(p, w) && w.inst.status.au.pending != ""
    ensures SoundWorld(p, DriveRollback(w).w)
  {
    if w.inst.status.au.previous == "" {
      AbortSound(p, w, NoPreviousVersion);
    } else {
      RevertSound(p, w, w.inst.status.au.previous);
    }
  }

  lemma {:induction false} RevertSound(p: string, w: World, previous: string)
    requires SoundWorld(p, w) && w.inst.status.au.pending != ""
    ensures SoundWorld(p, RevertTag(w, previous).w)
  {
    RecordRollbackSound(p, PatchTag(w, previous).w, previous);
  }

  lemma {:induction false} RecordRollbackSound(p: string, w: World, previous: string)
    requires SoundWorld(p, w) && w.inst.status.au.pending != ""
    ensures SoundWorld(p, RecordRollback(w, previous).w)
  {
  }

  lemma {:induction false} DriveSound(p: string, w: World, i: Inputs)
    requires SoundWorld(p, w) && w.inst.status.au.pending != ""
    ensures SoundWorld(p, DriveUpdateStateMachine(w, i).w)
  {
    var au := w.inst.status.au;
    if au.phase.HealthCheck? {
      HealthCheckSound(p, w);
    } else if au.phase.RollingBack? {
      RollbackSound(p, w);
    } else if !w.inst.status.phase.Updating? {
    } else if NeedsBackup(w.inst.spec) && (au.phase.Idle? || au.phase.BackingUp?) {
      BackUpFirstSound(p, w, i);
    } else {
      ApplySound(p, w, i);
    }
  }

  lemma {:induction false} BackUpFirstSound(p: string, w: World, i: Inputs)
    requires SoundWorld(p, w) && w.inst.status.au.pending != ""
    ensures SoundWorld(p, BackUpFirst(w, i).w)
  {
    BackupSound(p, w, i);
    var b := DrivePreUpdateBackup(w, i);
    if b.err {
      AbortSound(p, b.w, BackupFailed);
    } else if b.done {
      RecordSound(p, b.w);
      ApplySound(p, RecordBackupPath(b.w), i);
    }
  }

  lemma {:induction false} CheckSound(p: string, w: World, i: Inputs)
    requires SoundWorld(p, w) && w.inst.status.au.pending == "" && w.inst.status.au.rollbacks < MAX_ROLLBACKS
    ensures SoundWorld(p, CheckForUpdate(w, i).w)
  {
    var answer := LatestVersion(w, i);
    if answer.Some? {
      var au := w.inst.status.au.(lastCheck := Some(w.db.now), latest := answer.value);
      CompareSound(p, SetAutoUpdate(w, au), i, answer.value);
      ResolveLatestSound(p, SetAutoUpdate(w, au), answer.value);
    }
  }

  lemma {:induction false} ResolveLatestSound(p: string, w: World, version: string)
    requires SoundWorld(p, w)
    ensures SoundWorld(p, ResolveLatest(w, version).w)
  {
  }

  lemma {:induction false} CompareSound(p: string, w: World, i: Inputs, version: string)
    requires SoundWorld(p, w) && w.inst.status.au.rollbacks < MAX_ROLLBACKS
    ensures SoundWorld(p, CompareVersions(w, i, version).w)
  {
    if i.parse(version).Some? {
      ConsiderSound(p, SetAutoUpdate(w, w.inst.status.au.(current := w.inst.spec.tag)), i, version);
    }
  }

  lemma {:induction false} ConsiderSound(p: string, w: World, i: Inputs, version: string)
    requires SoundWorld(p, w) && w.inst.status.au.rollbacks < MAX_ROLLBACKS && i.parse(version).Some?
    ensures SoundWorld(p, ConsiderVersion(w, i, version).w)
  {
  }

  lemma {:induction false} AutoUpdateSound(p: string, w: World, i: Inputs)
    requires SoundWorld(p, w)
    ensures SoundWorld(p, ReconcileAutoUpdate(w, i).w)
  {
    if w.inst.status.au.pending != "" {
      DriveSound(p, w, i);
    } else if w.inst.status.au.rollbacks < MAX_ROLLBACKS {
      CheckSound(p, w, i);
    }
  }

  lemma {:induction false} ResourcesSound(p: string, w: World)
    requires SoundWorld(p, w)
    ensures SoundWorld(p, ReconcileResources(w).w)
    ensures ReconcileResources(w).w.inst.status.phase == w.inst.status.phase
  {
  }

  lemma {:induction false} WriteSound(p: string, w: World, saved: Status, i: Inputs)
    requires SoundWorld(p, w)
    ensures SoundWorld(p, WriteStatus(w).w) && SoundWorld(p, WriteIfChanged(w, saved, i).w)
  {
  }

  lemma {:induction false} SetPhaseSound(p: string, w: World, phase: Phase)
    requires SoundWorld(p, w) && LivePhase(phase) && (phase.Unset? || phase.Pending? ==> w.inst.status.au.rollbacks == 0)
    ensures SoundWorld(p, SetPhase(w, phase))
  {
  }

  lemma {:induction false} RestSound(p: string, w: World, saved: Status, i: Inputs)
    requires SoundWorld(p, w)
    ensures SoundWorld(p, ReconcileRest(w, saved, i).w)
  {
    var Reply(w1, ok) := ReconcileResources(w);
    ResourcesSound(p, w);
    if !ok {
      SetPhaseSound(p, w1, FailedPhase);
      WriteSound(p, SetPhase(w1, FailedPhase), saved, i);
    } else if w1.inst.spec.suspended {
      SetPhaseSound(p, w1, Suspended);
      WriteSound(p, SetPhase(w1, Suspended), saved, i);
    } else {
      var w2 := SetPhase(w1, ObservedPhase(w1, i));
      SetPhaseSound(p, w1, ObservedPhase(w1, i));
      AutoUpdateSound(p, w2, i);
      WriteSound(p, ReconcileAutoUpdate(w2, i).w, saved, i);
    }
  }

  lemma {:induction false} ProvisionedSound(p: string, w: World, i: Inputs)
    requires SoundWorld(p, w)
    ensures SoundWorld(p, ReconcileProvisioned(w, i).w)
  {
    AutoUpdateSound(p, w, i);
    var r := ReconcileAutoUpdate(w, i);
    RestSound(p, r.w, w.inst.status, i);
    RestSound(p, w, w.inst.status, i);
    WriteSound(p, r.w, w.inst.status, i);
  }

  lemma {:induction false} ResolveSound(p: string, w: World, i: Inputs)
    requires SoundWorld(p, w)
    ensures SoundWorld(p, ResolveInitialTag(w, i).w)
  {
    var answer := LatestVersion(w, i);
    if answer.Some? {
      var Reply(w1, ok) := PatchTag(w, answer.value);
      PatchTagSound(p, w, answer.value);
      if ok {
        var w2 := SetAutoUpdate(w1, w1.inst.status.au.(current := answer.value));
        assert SoundWorld(p, w2);
        WriteSound(p, w2, w.inst.status, i);
      }
    }
  }

  // ----- deletion -----

  lemma {:induction false} TerminateSound(p: string, w: World)
    requires SoundWorld(p, w) && w.db.inst.spec.deleting
    ensures SoundWorld(p, Terminate(w).w)
  {
  }

  lemma {:induction false} StartDeletionSound(p: string, w: World, i: Inputs, creds: Credentials)
    requires SoundWorld(p, w) && w.db.inst.spec.deleting && DeletionBackup !in w.db.jobs
    ensures Sound(p, StartDeletionBackup(w, i, creds).w.db)
  {
    if w.inst.status.lastBackupPath != "" {
      CreateDeletionSound(p, w, creds, w.inst.status.lastBackupPath);
    } else {
      var path := DeletionPath(w.inst.spec, i.stamp);
      NoPathYet(w.db.history, path);
      assert path[0] == 'b';
      var w1 := w.(inst := w.inst.(status := w.inst.status.(lastBackupPath := path)));
      var r := WriteStatus(w1);
      if r.ok {
        CreateDeletionSound(p, r.w, creds, path);
      }
    }
  }

  lemma {:induction false} CreateDeletionSound(p: string, w: World, creds: Credentials, path: string)
    requires SoundWorld(p, w) && w.db.inst.spec.deleting && path == w.inst.status.lastBackupPath != ""
    ensures Sound(p, CreateDeletionJob(w, creds, path).w.db)
  {
    BackupArguments(creds, path);
  }

  /** As long as no path is settled, no backup was started. */
  lemma {:induction false} NoPathYet(h: History, path: string)
    requires SinglePath(h, "")
    ensures SinglePath(h, path)
  {
    match h
    case Start =>
    case After(past, _) => NoPathYet(past, path);
  }

  lemma {:induction false} DeletionJobSound(p: string, w: World, i: Inputs, creds: Credentials)
    requires SoundWorld(p, w) && w.db.inst.spec.deleting
    ensures Sound(p, DeletionJob(w, i, creds).w.db)
  {
    var w1 := Call(w).w;
    if !Call(w).ok {
    } else if DeletionBackup !in w1.db.jobs {
      StartDeletionSound(p, w1, i, creds);
    } else {
      AwaitDeletionSound(p, w1, VerdictOf(w1.db.jobs[DeletionBackup].conditions));
    }
  }

  lemma {:induction false} NoticeSound(p: string, w: World, n: Notice)
    requires SoundWorld(p, w) && !n.BackupStarted?
    ensures SoundWorld(p, Emit(w, n)) && SoundWorld(p, SetBackingUpSince(Emit(w, n), None))
  {
  }

  lemma {:induction false} AwaitDeletionSound(p: string, w: World, verdict: Verdict)
    requires SoundWorld(p, w) && w.db.inst.spec.deleting
    ensures Sound(p, AwaitDeletionJob(w, verdict).w.db)
  {
    if verdict.Completed? {
      var n := BackupComplete(w.inst.status.lastBackupPath);
      NoticeSound(p, w, n);
      TerminateSound(p, SetBackingUpSince(Emit(w, n), None));
    }
  }

  lemma {:induction false} BackUpForDeletionSound(p: string, w: World, i: Inputs)
    requires SoundWorld(p, w) && w.db.inst.spec.deleting
    ensures Sound(p, BackUpForDeletion(w, i).w.db)
  {
    var (w1, creds) := ReadCredentials(w);
    if creds.Missing? {
      TerminateSound(p, Emit(w1, BackupSkipped));
    } else if creds.Usable? {
      DeletionJobSound(p, MirrorSecret(w1, creds.creds).w, i, creds.creds);
    }
  }

  lemma {:induction false} DeadlineSound(p: string, w: World, i: Inputs)
    requires SoundWorld(p, w) && w.db.inst.spec.deleting
    ensures Sound(p, CheckDeadline(w, i).w.db)
  {
    if DeadlinePassed(w) {
      NoticeSound(p, w, BackupTimedOut);
      TerminateSound(p, SetBackingUpSince(Emit(w, BackupTimedOut), None));
    } else {
      ScaleDownSound(p, w, i);
    }
  }

  lemma {:induction false} ScaleDownSound(p: string, w: World, i: Inputs)
    requires SoundWorld(p, w) && w.db.inst.spec.deleting
    ensures Sound(p, ScaleDownForDeletion(w, i).w.db)
  {
    var r := Call(w);
    if r.ok && r.w.db.sts.None? {
      BackUpForDeletionSound(p, r.w, i);
    } else if r.ok && r.w.db.sts.value.replicas == Some(0) {
      AwaitPodsSound(p, r.w, i);
    }
  }

  lemma {:induction false} AwaitPodsSound(p: string, w: World, i: Inputs)
    requires SoundWorld(p, w) && w.db.inst.spec.deleting
    ensures Sound(p, AwaitPodsForDeletion(w, i).w.db)
  {
    BackUpForDeletionSound(p, Call(w).w, i);
  }

  lemma {:induction false} DeleteSound(p: string, w: World, i: Inputs)
    requires SoundWorld(p, w) && w.db.inst.spec.deleting
    ensures Sound(p, ReconcileDeleteWithBackup(w, i).w.db)
  {
    if w.inst.spec.skipBackup || !w.inst.spec.options.persistence {
      TerminateSound(p, w);
    } else if w.inst.status.phase.BackingUpPhase? || w.inst.status.phase.Terminating? {
      DeadlineSound(p, w, i);
    } else {
      var w1 := SetBackingUpSince(SetPhase(w, BackingUpPhase), Some(w.db.now));
      assert SoundWorld(p, w1);
      WriteSound(p, w1, w.inst.status, i);
      DeadlineSound(p, WriteStatus(w1).w, i);
    }
  }

  // ----- whole reconciles and runs -----

  lemma {:induction false} ReconcileSound(p: string, c: Cluster, i: Inputs, fate: Fate)
    requires Sound(p, c)
    ensures Sound(p, Reconcile(c, i, fate).w.db)
  {
    var w0 := World(c, c.inst, fate);
    var w := Call(w0).w;
    if Gone(c.inst.spec) || !Call(w0).ok {
    } else if c.inst.spec.deleting {
      DeleteSound(p, w, i);
    } else if !c.inst.spec.finalizer {
    } else if c.inst.status.phase.Unset? {
      SetPhaseSound(p, w, Pending);
      WriteSound(p, SetPhase(w, Pending), c.inst.status, i);
    } else if c.inst.status.phase.Pending? {
      var w1 := WriteStatus(SetPhase(w, Provisioning)).w;
      SetPhaseSound(p, w, Provisioning);
      WriteSound(p, SetPhase(w, Provisioning), c.inst.status, i);
      ResolveSound(p, w1, i);
      ProvisionedSound(p, ResolveInitialTag(w1, i).w, i);
    } else {
      ProvisionedSound(p, w, i);
    }
  }

  lemma {:induction false} StepSound(p: string, c: Cluster, e: Event)
    requires Sound(p, c)
    ensures Sound(p, Step(c, e))
  {
    if e.Reconciled? {
      ReconcileSound(p, c, e.input, e.fate);
    } else if Enabled(c, e) {
      EventSound(p, c, e);
    }
  }

  lemma {:induction false} EventSound(p: string, c: Cluster, e: Event)
    requires Sound(p, c) && !e.Reconciled? && Enabled(c, e)
    ensures Sound(p, Apply(c, e))
  {
  }

  lemma {:induction false} RunSound(p: string, c: Cluster, events: seq<Event>)
    requires Sound(p, c)
    ensures Sound(p, Run(c, events))
  {
    if events != [] {
      RunSound(p, c, events[..|events| - 1]);
      StepSound(p, Run(c, events[..|events| - 1]), events[|events| - 1]);
    }
  }

  // ----- what follows for every run -----

  /** Circuit breaker: at most three rollbacks in a row, and nothing is pending at three. */
  lemma {:induction false} CircuitBreaker(c: Cluster, events: seq<Event>)
    requires Initial(c)
    ensures var au := Run(c, events).inst.status.au;
            0 <= au.rollbacks <= MAX_ROLLBACKS && (au.pending != "" ==> au.rollbacks < MAX_ROLLBACKS)
  {
    RunSound("", c, events);
  }

  /** The wrong argument index leaves PreUpdateBackupPath empty for ever, so a rollback never
      restores the volume. */
  lemma {:induction false} BackupPathIsNeverRecorded(c: Cluster, events: seq<Event>)
    requires Initial(c)
    ensures Run(c, events).inst.status.au.backupPath == ""
    ensures RollbackRestore !in Run(c, events).jobs
  {
    RunSound("", c, events);
  }

  lemma {:induction false} RunAppend(c: Cluster, before: seq<Event>, after: seq<Event>)
    ensures Run(c, before + after) == Run(Run(c, before), after)
  {
    if after == [] {
      assert before + after == before;
    } else {
      var init := after[..|after| - 1];
      var e := after[|after| - 1];
      RunAppend(c, before, init);
      RunLast(c, before + init, e);
      RunLast(Run(c, before), init, e);
      assert before + after == before + init + [e] && after == init + [e];
    }
  }

  lemma {:induction false} RunLast(c: Cluster, init: seq<Event>, e: Event)
    ensures Run(c, init + [e]) == Step(Run(c, init), e)
  {
    assert (init + [e])[..|init|] == init;
  }

  /** All backup Jobs of a deletion go to one remote path: once settled it never changes, every Job
      that exists uses it, and so did every Job announced before. */
  lemma {:induction false} DeletionUsesOnePath(c: Cluster, before: seq<Event>, after: seq<Event>)
    requires Initial(c) && Run(c, before).inst.status.lastBackupPath != ""
    ensures var path, end := Run(c, before).inst.status.lastBackupPath, Run(c, before + after);
            && end.inst.status.lastBackupPath == path
            && (DeletionBackup in end.jobs ==> Targets(end.jobs[DeletionBackup].args, path))
            && SinglePath(end.history, path)
  {
    RunSound("", c, before);
    RunSound(Run(c, before).inst.status.lastBackupPath, Run(c, before), after);
    RunAppend(c, before, after);
  }

  // ----- the breaker stays open -----

  predicate Paused(c: Cluster) {
    c.inst.status.au.pending == "" && c.inst.status.au.rollbacks == MAX_ROLLBACKS
  }

  predicate PausedWorld(tag: string, w: World) {
    && Paused(w.db) && w.db.inst.spec.tag == tag
    && w.inst.status.au.pending == "" && w.inst.status.au.rollbacks == MAX_ROLLBACKS
  }

  lemma {:induction false} RestPaused(tag: string, w: World, saved: Status, i: Inputs)
    requires PausedWorld(tag, w)
    ensures PausedWorld(tag, ReconcileRest(w, saved, i).w)
  {
    ResourcesPaused(tag, w);
    var Reply(w1, ok) := ReconcileResources(w);
    var phase := if !ok then FailedPhase else if w1.inst.spec.suspended then Suspended else ObservedPhase(w1, i);
    WritePaused(tag, SetPhase(w1, phase), saved, i);
  }

  lemma {:induction false} WritePaused(tag: string, w: World, saved: Status, i: Inputs)
    requires PausedWorld(tag, w)
    ensures PausedWorld(tag, WriteStatus(w).w) && PausedWorld(tag, WriteIfChanged(w, saved, i).w)
    ensures ReconcileAutoUpdate(w, i).w == w
  {
  }

  lemma {:induction false} ResourcesPaused(tag: string, w: World)
    requires PausedWorld(tag, w)
    ensures PausedWorld(tag, ReconcileResources(w).w)
  {
  }

  lemma {:induction false} ReconcilePaused(c: Cluster, i: Inputs, fate: Fate)
    requires Sound("", c) && Paused(c)
    ensures var c' := Reconcile(c, i, fate).w.db; Paused(c') && c'.inst.spec.tag == c.inst.spec.tag
  {
    var w0 := World(c, c.inst, fate);
    var w := Call(w0).w;
    if !Gone(c.inst.spec) && Call(w0).ok && c.inst.spec.deleting {
      DeleteFramed(c, w, i);
    } else {
      RestPaused(c.inst.spec.tag, w, c.inst.status, i);
    }
  }

  /** Once the breaker is open with nothing pending, no reconcile changes the tag again, however
      the run goes on; only an edit by the user does. */
  lemma {:induction false} BreakerStaysOpen(c: Cluster, events: seq<Event>)
    requires Sound("", c) && Paused(c)
    requires forall k :: 0 <= k < |events| ==> !events[k].EditTag?
    ensures Paused(Run(c, events)) && Run(c, events).inst.spec.tag == c.inst.spec.tag
  {
    if events != [] {
      var init, e := events[..|events| - 1], events[|events| - 1];
      BreakerStaysOpen(c, init);
      RunSound("", c, init);
      StepPaused(Run(c, init), e);
    }
  }

  /** In every run, from the third rollback in a row on the tag is the user's alone to change. */
  lemma {:induction false} BreakerEndsUpdates(c: Cluster, before: seq<Event>, after: seq<Event>)
    requires Initial(c) && Paused(Run(c, before))
    requires forall k :: 0 <= k < |after| ==> !after[k].EditTag?
    ensures var end := Run(c, before + after);
            Paused(end) && end.inst.spec.tag == Run(c, before).inst.spec.tag
  {
    RunSound("", c, before);
    BreakerStaysOpen(Run(c, before), after);
    RunAppend(c, before, after);
  }

  lemma {:induction false} StepPaused(c: Cluster, e: Event)
    requires Sound("", c) && Paused(c) && !e.EditTag?
    ensures Paused(Step(c, e)) && Step(c, e).inst.spec.tag == c.inst.spec.tag
  {
    if e.Reconciled? {
      ReconcilePaused(c, e.input, e.fate);
    }
  }
}
