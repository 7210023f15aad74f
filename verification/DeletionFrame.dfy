/** What deletion leaves alone, whatever calls fail: the tag, the update status, the update Jobs.
    The only thing it does to the workload is to scale it down. */
module DeletionFrame {
  import opened Wrappers
  import opened Rclone
  import opened Cluster
  import opened AutoUpdate
  import opened Deletion

  /** Notices that announce nothing about updates. */
  predicate AboutDeletion(n: Notice) {
    n.BackupStarted? || n.BackupTimedOut? || n.BackupSkipped? || n.BackupComplete?
  }

  /** `h` continues `h0` with deletion notices only. */
  predicate Quietly(h0: History, h: History) {
    h == h0 || (h.After? && AboutDeletion(h.notice) && Quietly(h0, h.past))
  }

  predicate ScaledDownAtMost(before: Option<StatefulSet>, now: Option<StatefulSet>) {
    now == before || (before.Some? && now == Some(before.value.(replicas := Some(0))))
  }

  predicate PhaseFrame(before: Phase, now: Phase) {
    now == before || now.BackingUpPhase? || now.Terminating?
  }

  predicate Framed(c0: Cluster, w: World) {
    && w.inst.status.au == c0.inst.status.au && w.db.inst.status.au == c0.inst.status.au
    && w.db.inst.spec == c0.inst.spec.(finalizer := w.db.inst.spec.finalizer)
    && ScaledDownAtMost(c0.sts, w.db.sts) && w.db.pods == c0.pods
    && w.db.jobs - {DeletionBackup} == c0.jobs - {DeletionBackup}
    && w.db.secret == c0.secret && w.db.tags == c0.tags
    && Quietly(c0.history, w.db.history)
    && PhaseFrame(c0.inst.status.phase, w.inst.status.phase) && PhaseFrame(c0.inst.status.phase, w.db.inst.status.phase)
  }

  lemma {:induction false} TerminateFramed(c0: Cluster, w: World)
    requires Framed(c0, w)
    ensures Framed(c0, Terminate(w).w)
  {
    var w1 := SetPhase(w, Terminating);
    assert Framed(c0, w1);
    StatusFramed(c0, w1);
    FinalizerFramed(c0, WriteStatus(w1).w);
  }

  lemma {:induction false} StatusFramed(c0: Cluster, w: World)
    requires Framed(c0, w)
    ensures Framed(c0, WriteStatus(w).w)
  {
  }

  lemma {:induction false} FinalizerFramed(c0: Cluster, w: World)
    requires Framed(c0, w)
    ensures Framed(c0, RemoveFinalizer(w).w)
  {
  }

  lemma {:induction false} JobFramed(c0: Cluster, w: World, job: Job)
    requires Framed(c0, w)
    ensures Framed(c0, CreateJob(w, DeletionBackup, job).w)
  {
    var jobs := w.db.jobs[DeletionBackup := job];
    assert jobs - {DeletionBackup} == w.db.jobs - {DeletionBackup};
  }

  lemma {:induction false} EmitFramed(c0: Cluster, w: World, n: Notice)
    requires Framed(c0, w) && AboutDeletion(n)
    ensures Framed(c0, Emit(w, n))
  {
  }

  lemma {:induction false} CreateDeletionFramed(c0: Cluster, w: World, creds: Credentials, path: string)
    requires Framed(c0, w)
    ensures Framed(c0, CreateDeletionJob(w, creds, path).w)
  {
    JobFramed(c0, w, BackupJob(creds, path));
    EmitFramed(c0, CreateJob(w, DeletionBackup, BackupJob(creds, path)).w, BackupStarted(path));
  }

  lemma {:induction false} StartDeletionFramed(c0: Cluster, w: World, i: Inputs, creds: Credentials)
    requires Framed(c0, w)
    ensures Framed(c0, StartDeletionBackup(w, i, creds).w)
  {
    var settled := w.inst.status.lastBackupPath != "";
    var path := if settled then w.inst.status.lastBackupPath else DeletionPath(w.inst.spec, i.stamp);
    var w1 := w.(inst := w.inst.(status := w.inst.status.(lastBackupPath := path)));
    CreateDeletionFramed(c0, if settled then w1 else WriteStatus(w1).w, creds, path);
  }

  lemma {:induction false} DeletionJobFramed(c0: Cluster, w: World, i: Inputs, creds: Credentials)
    requires Framed(c0, w)
    ensures Framed(c0, DeletionJob(w, i, creds).w)
  {
    var w1 := Call(w).w;
    if DeletionBackup !in w1.db.jobs {
      StartDeletionFramed(c0, w1, i, creds);
    } else {
      AwaitDeletionFramed(c0, w1, VerdictOf(w1.db.jobs[DeletionBackup].conditions));
    }
  }

  lemma {:induction false} NoticeFramed(c0: Cluster, w: World, n: Notice)
    requires Framed(c0, w) && AboutDeletion(n)
    ensures Framed(c0, SetBackingUpSince(Emit(w, n), None))
  {
  }

  lemma {:induction false} AwaitDeletionFramed(c0: Cluster, w: World, verdict: Verdict)
    requires Framed(c0, w)
    ensures Framed(c0, AwaitDeletionJob(w, verdict).w)
  {
    if verdict.Completed? {
      NoticeFramed(c0, w, BackupComplete(w.inst.status.lastBackupPath));
      TerminateFramed(c0, SetBackingUpSince(Emit(w, BackupComplete(w.inst.status.lastBackupPath)), None));
    }
  }

  lemma {:induction false} ReadFramed(c0: Cluster, w: World)
    requires Framed(c0, w)
    ensures Framed(c0, ReadCredentials(w).0)
  {
  }

  lemma {:induction false} MirrorFramed(c0: Cluster, w: World, creds: Credentials)
    requires Framed(c0, w)
    ensures Framed(c0, MirrorSecret(w, creds).w)
  {
  }

  lemma {:induction false} BackUpFramed(c0: Cluster, w: World, i: Inputs)
    requires Framed(c0, w)
    ensures Framed(c0, BackUpForDeletion(w, i).w)
  {
    var (w1, creds) := ReadCredentials(w);
    ReadFramed(c0, w);
    if creds.Missing? {
      EmitFramed(c0, w1, BackupSkipped);
      TerminateFramed(c0, Emit(w1, BackupSkipped));
    } else if creds.Usable? {
      MirrorFramed(c0, w1, creds.creds);
      DeletionJobFramed(c0, MirrorSecret(w1, creds.creds).w, i, creds.creds);
    }
  }

  lemma {:induction false} AwaitPodsFramed(c0: Cluster, w: World, i: Inputs)
    requires Framed(c0, w)
    ensures Framed(c0, AwaitPodsForDeletion(w, i).w)
  {
    BackUpFramed(c0, Call(w).w, i);
  }

  lemma {:induction false} ScaleFramed(c0: Cluster, w: World)
    requires Framed(c0, w) && w.db.sts.Some?
    ensures Framed(c0, PatchReplicas(w, 0).w)
  {
  }

  lemma {:induction false} ScaleDownFramed(c0: Cluster, w: World, i: Inputs)
    requires Framed(c0, w)
    ensures Framed(c0, ScaleDownForDeletion(w, i).w)
  {
    var Reply(w1, ok) := Call(w);
    if !ok {
    } else if w1.db.sts.None? {
      BackUpFramed(c0, w1, i);
    } else if w1.db.sts.value.replicas != Some(0) {
      ScaleFramed(c0, w1);
    } else {
      AwaitPodsFramed(c0, w1, i);
    }
  }

  lemma {:induction false} DeadlineFramed(c0: Cluster, w: World, i: Inputs)
    requires Framed(c0, w)
    ensures Framed(c0, CheckDeadline(w, i).w)
  {
    if DeadlinePassed(w) {
      NoticeFramed(c0, w, BackupTimedOut);
      TerminateFramed(c0, SetBackingUpSince(Emit(w, BackupTimedOut), None));
    } else {
      ScaleDownFramed(c0, w, i);
    }
  }

  lemma {:induction false} DeleteFramed(c0: Cluster, w: World, i: Inputs)
    requires Framed(c0, w)
    ensures Framed(c0, ReconcileDeleteWithBackup(w, i).w)
  {
    if w.inst.spec.skipBackup || !w.inst.spec.options.persistence {
      TerminateFramed(c0, w);
    } else if w.inst.status.phase.BackingUpPhase? || w.inst.status.phase.Terminating? {
      DeadlineFramed(c0, w, i);
    } else {
      DeadlineFramed(c0, WriteStatus(SetBackingUpSince(SetPhase(w, BackingUpPhase), Some(w.db.now))).w, i);
    }
  }
}
