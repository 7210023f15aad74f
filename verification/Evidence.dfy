/** Two things no reconcile does without cause, whatever calls fail and wherever it stops: confirm an update
    without ready pods, and start the deletion backup beside a running workload. */
module Evidence {
  import opened Wrappers
  import opened Rclone
  import opened Cluster
  import opened AutoUpdate
  import opened Deletion
  import opened Lifecycle
  import opened DeletionFrame
  import opened UpdateSafety

  function Confirmations(h: History): nat {
    match h
    case Start => 0
    case After(past, n) => Confirmations(past) + if n.Confirmed? then 1 else 0
  }

  /** The StatefulSet reports ready and updated pods. */
  predicate Ready(c: Cluster) {
    c.sts.Some? && c.sts.value.ready > 0 && c.sts.value.updated > 0
  }

  /** From `w` to `x` the deletion Job is left alone, and nothing is confirmed unless pods are ready. */
  predicate Leaves(w: World, x: World) {
    && (DeletionBackup in x.db.jobs <==> DeletionBackup in w.db.jobs)
    && (DeletionBackup in w.db.jobs ==> x.db.jobs[DeletionBackup] == w.db.jobs[DeletionBackup])
    && (Ready(x.db) ==> Ready(w.db))
    && (Ready(w.db) || Confirmations(x.db.history) == Confirmations(w.db.history))
    && x.db.inst.spec.deleting == w.db.inst.spec.deleting
  }

  lemma LeavesThen(w: World, x: World, y: World)
    requires Leaves(w, x) && Leaves(x, y)
    ensures Leaves(w, y)
  {
  }

  // ----- calls -----

  lemma {:induction false} CallsLeave(w: World)
    ensures Leaves(w, Call(w).w) && Leaves(w, WriteStatus(w).w)
    ensures forall tag :: Leaves(w, PatchTag(w, tag).w)
    ensures w.db.sts.Some? ==> forall n: nat :: Leaves(w, PatchReplicas(w, n).w)
  {
  }

  lemma {:induction false} JobsLeave(w: World, name: JobName, job: Job)
    requires name != DeletionBackup
    ensures Leaves(w, CreateJob(w, name, job).w)
  {
  }

  lemma {:induction false} EmitLeaves(w: World, n: Notice)
    requires !n.Confirmed?
    ensures Leaves(w, Emit(w, n))
  {
  }

  // ----- the update -----

  lemma {:induction false} AbortLeaves(w: World, reason: Reason)
    ensures Leaves(w, AbortUpdate(w, reason).w)
  {
    var w1 := SetPhase(SetAutoUpdate(w, w.inst.status.au.(pending := "", phase := Idle)), Running);
    var w2 := Emit(w1, Aborted(reason));
    EmitLeaves(w1, Aborted(reason));
    var w3 := WriteStatus(w2).w;
    CallsLeave(w2);
    CallsLeave(w3);
    CallsLeave(Call(w3).w);
  }

  lemma {:induction false} BackupJobLeaves(w: World, i: Inputs, creds: Credentials)
    ensures Leaves(w, PreUpdateJob(w, i, creds).w)
  {
    CallsLeave(w);
    var w1 := Call(w).w;
    JobsLeave(w1, PreUpdateBackup, BackupJob(creds, PreUpdatePath(w1.inst.spec, i.stamp)));
  }

  lemma {:induction false} ReadLeaves(w: World)
    ensures Leaves(w, ReadCredentials(w).0)
  {
  }

  lemma {:induction false} MirrorLeaves(w: World, creds: Credentials)
    ensures Leaves(w, MirrorSecret(w, creds).w)
  {
  }

  lemma {:induction false} CredentialsLeave(w: World, i: Inputs)
    ensures Leaves(w, PreUpdateCredentials(w, i).w)
  {
    ReadLeaves(w);
    var (w1, creds) := ReadCredentials(w);
    if creds.Usable? {
      MirrorLeaves(w1, creds.creds);
      BackupJobLeaves(MirrorSecret(w1, creds.creds).w, i, creds.creds);
    }
  }

  lemma {:induction false} AwaitLeaves(w: World, i: Inputs)
    ensures Leaves(w, AwaitTermination(w, i).w)
  {
    CallsLeave(w);
    CredentialsLeave(Call(w).w, i);
  }

  lemma {:induction false} BackupLeaves(w: World, i: Inputs)
    ensures Leaves(w, DrivePreUpdateBackup(w, i).w)
  {
    CallsLeave(w);
    var w1 := Call(w).w;
    CallsLeave(w1);
    AwaitLeaves(w1, i);
  }

  lemma {:induction false} RecordLeaves(w: World)
    ensures Leaves(w, RecordBackupPath(w))
  {
    CallsLeave(w);
    CallsLeave(Call(w).w);
  }

  lemma {:induction false} StartLeaves(w: World, pending: string)
    ensures Leaves(w, StartHealthCheck(w, pending).w) && Leaves(w, FinishWithoutHealthCheck(w, pending).w)
  {
  }

  lemma {:induction false} ScaleUpLeaves(w: World)
    ensures Leaves(w, ScaleBackUp(w).w)
  {
    CallsLeave(w);
    CallsLeave(Call(w).w);
  }

  lemma {:induction false} AfterPatchLeaves(w: World, pending: string)
    ensures Leaves(w, AfterTagPatch(w, pending).w)
  {
    ScaleUpLeaves(w);
    AbortLeaves(ScaleBackUp(w).w, ScaleUpFailed);
    StartLeaves(ScaleBackUp(w).w, pending);
  }

  lemma {:induction false} ApplyLeaves(w: World)
    ensures Leaves(w, ApplyUpdate(w).w)
  {
    var pending := w.inst.status.au.pending;
    var w0 := SetAutoUpdate(w, w.inst.status.au.(previous := w.inst.spec.tag, phase := ApplyingUpdate));
    CallsLeave(w0);
    var w1 := WriteStatus(w0).w;
    CallsLeave(w1);
    AbortLeaves(PatchTag(w1, pending).w, PatchFailed);
    AfterPatchLeaves(PatchTag(w1, pending).w, pending);
  }

  /** The one place where an update is confirmed. */
  lemma {:induction false} HealthCheckLeaves(w: World)
    ensures Leaves(w, DriveHealthCheck(w).w)
  {
    CallsLeave(w);
    var Reply(w1, ok) := Call(w);
    if ok && w1.db.sts.Some? {
      if Ready(w1.db) {
        ConfirmLeaves(w1);
      } else {
        var since := if w1.inst.status.au.lastUpdate.Some? then w1.inst.status.au.lastUpdate.value else w1.db.now;
        var au := w1.inst.status.au.(lastUpdate := Some(since));
        var w2 := SetPhase(SetAutoUpdate(SetAutoUpdate(w1, au), au.(phase := RollingBack)), Updating);
        CallsLeave(w2);
        EmitLeaves(WriteStatus(w2).w, HealthCheckFailed(au.pending));
      }
    }
  }

  lemma {:induction false} ConfirmLeaves(w: World)
    ensures Ready(w.db) ==> Leaves(w, ConfirmUpdate(w).w)
  {
  }

  lemma {:induction false} RestoreLeaves(w: World, path: string)
    ensures Leaves(w, DriveRollbackRestore(w, path).w)
  {
    CallsLeave(w);
    var w1 := Call(w).w;
    CallsLeave(w1);
    var w2 := Call(w1).w;
    ReadLeaves(w2);
    var (w3, creds) := ReadCredentials(w2);
    LeavesThen(w, w1, w2);
    LeavesThen(w, w2, w3);
    if creds.Usable? {
      MirrorLeaves(w3, creds.creds);
      var w4 := MirrorSecret(w3, creds.creds).w;
      LeavesThen(w, w3, w4);
      RestoreJobLeaves(w4, creds.creds, path);
      LeavesThen(w, w4, RestoreJob(w4, creds.creds, path).w);
    }
  }

  lemma {:induction false} RestoreJobLeaves(w: World, creds: Credentials, path: string)
    ensures Leaves(w, RestoreJob(w, creds, path).w)
  {
    CallsLeave(w);
    JobsLeave(Call(w).w, RollbackRestore, Job(RcloneArgs(creds, path, false), []));
  }

  lemma {:induction false} RevertLeaves(w: World, previous: string)
    ensures Leaves(w, RevertTag(w, previous).w)
  {
    CallsLeave(w);
  }

  lemma {:induction false} RollbackLeaves(w: World)
    ensures Leaves(w, DriveRollback(w).w)
  {
    var au := w.inst.status.au;
    if au.previous == "" {
      AbortLeaves(w, NoPreviousVersion);
    } else {
      RestoreLeaves(w, au.backupPath);
      RevertLeaves(w, au.previous);
      RevertLeaves(DriveRollbackRestore(w, au.backupPath).w, au.previous);
    }
  }

  lemma {:induction false} BackUpFirstLeaves(w: World, i: Inputs)
    ensures Leaves(w, BackUpFirst(w, i).w)
  {
    BackupLeaves(w, i);
    var b := DrivePreUpdateBackup(w, i);
    if b.err {
      AbortLeaves(b.w, BackupFailed);
    } else if b.done {
      RecordLeaves(b.w);
      ApplyLeaves(RecordBackupPath(b.w));
    } else {
      CallsLeave(SetAutoUpdate(b.w, b.w.inst.status.au.(phase := BackingUp)));
    }
  }

  lemma {:induction false} DriveLeaves(w: World, i: Inputs)
    ensures Leaves(w, DriveUpdateStateMachine(w, i).w)
  {
    var au := w.inst.status.au;
    if au.phase.HealthCheck? {
      HealthCheckLeaves(w);
    } else if au.phase.RollingBack? {
      RollbackLeaves(w);
    } else if !w.inst.status.phase.Updating? {
      CallsLeave(SetPhase(w, Updating));
    } else if NeedsBackup(w.inst.spec) && (au.phase.Idle? || au.phase.BackingUp?) {
      BackUpFirstLeaves(w, i);
    } else {
      ApplyLeaves(w);
    }
  }

  lemma {:induction false} CheckLeaves(w: World, i: Inputs)
    ensures Leaves(w, CheckForUpdate(w, i).w)
  {
    var answer := LatestVersion(w, i);
    if answer.Some? {
      var w1 := SetAutoUpdate(w, w.inst.status.au.(lastCheck := Some(w.db.now), latest := answer.value));
      ResolveLatestLeaves(w1, answer.value);
      CompareLeaves(w1, i, answer.value);
    }
  }

  lemma {:induction false} ResolveLatestLeaves(w: World, version: string)
    ensures Leaves(w, ResolveLatest(w, version).w)
  {
    CallsLeave(w);
    var w1 := PatchTag(w, version).w;
    EmitLeaves(SetAutoUpdate(w1, w1.inst.status.au.(current := version)), TagResolved(version));
  }

  lemma {:induction false} CompareLeaves(w: World, i: Inputs, version: string)
    ensures Leaves(w, CompareVersions(w, i, version).w)
  {
    if i.parse(version).Some? {
      ConsiderLeaves(SetAutoUpdate(w, w.inst.status.au.(current := w.inst.spec.tag)), i, version);
    }
  }

  lemma {:induction false} ConsiderLeaves(w: World, i: Inputs, version: string)
    requires i.parse(version).Some?
    ensures Leaves(w, ConsiderVersion(w, i, version).w)
  {
  }

  lemma {:induction false} AutoUpdateLeaves(w: World, i: Inputs)
    ensures Leaves(w, ReconcileAutoUpdate(w, i).w)
  {
    DriveLeaves(w, i);
    CheckLeaves(w, i);
  }

  // ----- the rest -----

  lemma {:induction false} ResourcesLeave(w: World)
    ensures Leaves(w, ReconcileResources(w).w)
  {
  }

  lemma {:induction false} RestLeaves(w: World, saved: Status, i: Inputs)
    ensures Leaves(w, ReconcileRest(w, saved, i).w)
  {
    ResourcesLeave(w);
    var Reply(w1, ok) := ReconcileResources(w);
    var phase := if !ok then FailedPhase else if w1.inst.spec.suspended then Suspended else ObservedPhase(w1, i);
    var w2 := SetPhase(w1, phase);
    CallsLeave(w2);
    if ok && !w1.inst.spec.suspended {
      AutoUpdateLeaves(w2, i);
      CallsLeave(ReconcileAutoUpdate(w2, i).w);
    }
  }

  lemma {:induction false} ProvisionedLeaves(w: World, i: Inputs)
    ensures Leaves(w, ReconcileProvisioned(w, i).w)
  {
    if w.inst.status.au.pending != "" && !w.inst.spec.suspended {
      AutoUpdateLeaves(w, i);
      var r := ReconcileAutoUpdate(w, i);
      RestLeaves(r.w, w.inst.status, i);
      CallsLeave(r.w);
    } else {
      RestLeaves(w, w.inst.status, i);
    }
  }

  lemma {:induction false} ResolveLeaves(w: World, i: Inputs)
    ensures Leaves(w, ResolveInitialTag(w, i).w)
  {
    var answer := LatestVersion(w, i);
    if answer.Some? {
      CallsLeave(w);
      var w1 := PatchTag(w, answer.value).w;
      CallsLeave(SetAutoUpdate(w1, w1.inst.status.au.(current := answer.value)));
    }
  }

  lemma {:induction false} FirstLeaves(w: World, i: Inputs)
    ensures var Reply(w1, ok) := WriteStatus(SetPhase(w, Phase.Provisioning));
            var r := ResolveInitialTag(w1, i);
            Leaves(w, w1) && Leaves(w, r.w) && Leaves(w, ReconcileProvisioned(r.w, i).w)
  {
    CallsLeave(SetPhase(w, Phase.Provisioning));
    var w1 := WriteStatus(SetPhase(w, Phase.Provisioning)).w;
    ResolveLeaves(w1, i);
    ProvisionedLeaves(ResolveInitialTag(w1, i).w, i);
  }

  lemma {:induction false} LiveLeaves(c: Cluster, i: Inputs, fate: Fate)
    requires !c.inst.spec.deleting
    ensures Leaves(World(c, c.inst, fate), Reconcile(c, i, fate).w)
  {
    var w0 := World(c, c.inst, fate);
    var Reply(w, ok) := Call(w0);
    CallsLeave(w0);
    if ok {
      if !c.inst.spec.finalizer {
      } else if c.inst.status.phase.Unset? {
        CallsLeave(SetPhase(w, Phase.Pending));
      } else if c.inst.status.phase.Pending? {
        FirstLeaves(w, i);
      } else {
        ProvisionedLeaves(w, i);
      }
    }
  }

  // ----- confirmed for a reason -----

  lemma {:induction false} QuietlyConfirms(h0: History, h: History)
    requires Quietly(h0, h)
    ensures Confirmations(h) == Confirmations(h0)
  {
    if h != h0 {
      QuietlyConfirms(h0, h.past);
    }
  }

  /** Whatever the state and whatever fails, an update is announced as confirmed only by a reconcile that
      finds ready and updated pods. So every confirmation in the history of any run was made on them. */
  lemma {:induction false} ConfirmedOnlyIfReady(c: Cluster, e: Event)
    requires Confirmations(Step(c, e).history) != Confirmations(c.history)
    ensures e.Reconciled? && Ready(c) && !c.inst.spec.deleting
  {
    if e.Reconciled? {
      if c.inst.spec.deleting {
        DeletingConfirmsNothing(c, e.input, e.fate);
      } else {
        LiveLeaves(c, e.input, e.fate);
      }
    }
  }

  lemma {:induction false} DeletingConfirmsNothing(c: Cluster, i: Inputs, fate: Fate)
    requires c.inst.spec.deleting
    ensures Confirmations(Reconcile(c, i, fate).w.db.history) == Confirmations(c.history)
  {
    var Reply(w, ok) := Call(World(c, c.inst, fate));
    if !Gone(c.inst.spec) && ok {
      DeleteFramed(c, w, i);
      QuietlyConfirms(c.history, ReconcileDeleteWithBackup(w, i).w.db.history);
    }
  }

  // ----- the deletion backup -----

  /** Nothing runs on the volume: there is no workload, or it is scaled down and its pods are gone. */
  predicate Undisturbed(c: Cluster) {
    c.sts.None? || ScaledDown(c)
  }

  predicate SameDeletionJob(c: Cluster, d: Cluster) {
    && (DeletionBackup in d.jobs <==> DeletionBackup in c.jobs)
    && (DeletionBackup in c.jobs ==> d.jobs[DeletionBackup] == c.jobs[DeletionBackup])
  }

  lemma {:induction false} TerminateKeepsJob(w: World)
    ensures SameDeletionJob(w.db, Terminate(w).w.db)
  {
  }

  /** The Job that exists is not replaced. */
  predicate KeepsDeletionJob(c: Cluster, d: Cluster) {
    DeletionBackup in c.jobs ==> DeletionBackup in d.jobs && d.jobs[DeletionBackup] == c.jobs[DeletionBackup]
  }

  lemma {:induction false} StartKeepsJob(w: World, i: Inputs, creds: Credentials)
    requires DeletionBackup !in w.db.jobs
    ensures KeepsDeletionJob(w.db, StartDeletionBackup(w, i, creds).w.db)
  {
  }

  lemma {:induction false} BackUpKeepsJob(w: World, i: Inputs)
    ensures KeepsDeletionJob(w.db, BackUpForDeletion(w, i).w.db)
  {
    var (w1, creds) := ReadCredentials(w);
    assert w1.db == w.db;
    if creds.Missing? {
      TerminateKeepsJob(Emit(w1, BackupSkipped));
    } else if creds.Usable? {
      var w2 := MirrorSecret(w1, creds.creds).w;
      JobStepKeepsJob(w2, i, creds.creds);
    }
  }

  lemma {:induction false} JobStepKeepsJob(w: World, i: Inputs, creds: Credentials)
    ensures KeepsDeletionJob(w.db, DeletionJob(w, i, creds).w.db)
  {
    var Reply(w1, ok) := Call(w);
    if ok && DeletionBackup !in w1.db.jobs {
      StartKeepsJob(w1, i, creds);
    } else if ok {
      AwaitKeepsJob(w1, VerdictOf(w1.db.jobs[DeletionBackup].conditions));
    }
  }

  lemma {:induction false} AwaitKeepsJob(w: World, verdict: Verdict)
    ensures SameDeletionJob(w.db, AwaitDeletionJob(w, verdict).w.db)
  {
    if verdict.Completed? {
      TerminateKeepsJob(SetBackingUpSince(Emit(w, BackupComplete(w.inst.status.lastBackupPath)), None));
    }
  }

  /** The steps up to the backup create nothing while the workload is there. */
  lemma {:induction false} QuiesceFirst(w: World, i: Inputs)
    ensures KeepsDeletionJob(w.db, ScaleDownForDeletion(w, i).w.db)
    ensures !Undisturbed(w.db) ==> SameDeletionJob(w.db, ScaleDownForDeletion(w, i).w.db)
  {
    var Reply(w1, ok) := Call(w);
    if ok && w1.db.sts.None? {
      BackUpKeepsJob(w1, i);
    } else if ok && w1.db.sts.value.replicas == Some(0) {
      var Reply(w2, listed) := Call(w1);
      if listed && w2.db.pods == 0 {
        BackUpKeepsJob(w2, i);
      }
    }
  }

  lemma {:induction false} DeadlineFirst(w: World, i: Inputs)
    ensures KeepsDeletionJob(w.db, CheckDeadline(w, i).w.db)
    ensures !Undisturbed(w.db) ==> SameDeletionJob(w.db, CheckDeadline(w, i).w.db)
  {
    if DeadlinePassed(w) {
      TerminateKeepsJob(SetBackingUpSince(Emit(w, BackupTimedOut), None));
    } else {
      QuiesceFirst(w, i);
    }
  }

  lemma {:induction false} DeleteStarts(w: World, i: Inputs)
    ensures KeepsDeletionJob(w.db, ReconcileDeleteWithBackup(w, i).w.db)
    ensures !Undisturbed(w.db) ==> SameDeletionJob(w.db, ReconcileDeleteWithBackup(w, i).w.db)
  {
    if w.inst.spec.skipBackup || !w.inst.spec.options.persistence {
      TerminateKeepsJob(w);
    } else if w.inst.status.phase.BackingUpPhase? || w.inst.status.phase.Terminating? {
      DeadlineFirst(w, i);
    } else {
      DeadlineFirst(WriteStatus(SetBackingUpSince(SetPhase(w, BackingUpPhase), Some(w.db.now))).w, i);
    }
  }

  /** For every state, input and fate: a reconcile that brings a deletion Job into being is one of a deleted
      instance with nothing running on its volume, and one that finds a Job leaves it as it is. */
  lemma {:induction false} DeletionJobStartsUndisturbed(c: Cluster, i: Inputs, fate: Fate)
    ensures var end := Reconcile(c, i, fate).w.db;
            && (DeletionBackup !in c.jobs && DeletionBackup in end.jobs ==>
                  c.inst.spec.deleting && (c.sts.None? || ScaledDown(c)))
            && KeepsDeletionJob(c, end)
  {
    var Reply(w, ok) := Call(World(c, c.inst, fate));
    if !c.inst.spec.deleting {
      LiveLeaves(c, i, fate);
    } else if !Gone(c.inst.spec) && ok {
      DeleteStarts(w, i);
    }
  }

  predicate DeletionExcluded(c: Cluster) {
    JobUnfinished(c, DeletionBackup) ==> c.inst.spec.deleting && Undisturbed(c)
  }

  lemma {:induction false} ReconcileExcludes(c: Cluster, i: Inputs, fate: Fate)
    requires DeletionExcluded(c)
    ensures DeletionExcluded(Reconcile(c, i, fate).w.db)
  {
    DeletionJobStartsUndisturbed(c, i, fate);
    var Reply(w, ok) := Call(World(c, c.inst, fate));
    if !c.inst.spec.deleting {
      LiveLeaves(c, i, fate);
    } else if !Gone(c.inst.spec) && ok {
      DeleteFramed(c, w, i);
    }
  }

  lemma {:induction false} EventExcludes(c: Cluster, e: Event)
    requires DeletionExcluded(c) && !e.Reconciled? && Enabled(c, e)
    ensures DeletionExcluded(Apply(c, e))
  {
  }

  /** Mutual exclusion in every run, whatever fails: while the deletion backup is unfinished, the workload is
      not there or scaled down with no pods left. */
  lemma {:induction false} NothingRunsDuringDeletionBackup(c: Cluster, events: seq<Event>)
    requires Initial(c)
    ensures var end := Run(c, events);
            JobUnfinished(end, DeletionBackup) && end.sts.Some? ==> end.sts.value.replicas == Some(0) && end.pods == 0
  {
    RunExcludes(c, events);
  }

  lemma {:induction false} RunExcludes(c: Cluster, events: seq<Event>)
    requires DeletionExcluded(c)
    ensures DeletionExcluded(Run(c, events))
  {
    if events != [] {
      var init, e := events[..|events| - 1], events[|events| - 1];
      RunExcludes(c, init);
      if e.Reconciled? {
        ReconcileExcludes(Run(c, init), e.input, e.fate);
      } else if Enabled(Run(c, init), e) {
        EventExcludes(Run(c, init), e);
      }
    }
  }
}
