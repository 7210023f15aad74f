/** Run-wide consequences of the update invariant, and the places where the code departs from it
    as soon as a call fails or the process stops. */
module UpdateTheorems {
  import opened Wrappers
  import opened Rclone
  import opened Cluster
  import opened AutoUpdate
  import opened Deletion
  import opened Lifecycle
  import opened DeletionFrame
  import opened Resilience
  import opened UpdateSafety
  import opened StopSafety
  import Semver

  // ----- error-free runs -----

  /** During health check and rollback the tag is PendingVersion, and PreviousVersion is the tag that
      was set when the update was announced; it is strictly lower. */
  lemma {:induction false} TagMatchesPhase(parse: Semver.Parser, c: Cluster, events: seq<Event>)
    requires Admissible(parse, c, events)
    ensures var end := Run(c, events); var au := end.inst.status.au;
            au.phase.HealthCheck? || au.phase.RollingBack? ==>
              && end.inst.spec.tag == au.pending
              && Announced(end.history, au.pending) && LastAvailable(end.history).value.1 == au.previous
              && Newer(parse, au.pending, au.previous)
  {
    RunKeeps(parse, c, events);
  }

  /** Every rollback in the history of an error-free run restored the tag of the announcement it
      answers, and no update was ever given up for want of a previous version. */
  lemma {:induction false} HistoryIsLawful(parse: Semver.Parser, c: Cluster, events: seq<Event>)
    requires Admissible(parse, c, events)
    ensures Lawful(parse, Run(c, events).history)
  {
    RunKeeps(parse, c, events);
  }

  /** An instance the controller works on: not deleted, not suspended, set up. */
  predicate Active(c: Cluster) {
    && !c.inst.spec.deleting && c.inst.spec.finalizer && !c.inst.spec.suspended
    && !c.inst.status.phase.Unset? && !c.inst.status.phase.Pending?
  }

  /** The rollback step gives back exactly the tag from before the update. */
  lemma {:induction false} RollbackRestoresTag(parse: Semver.Parser, c: Cluster, events: seq<Event>, i: Inputs)
    requires Admissible(parse, c, events)
    requires var now := Run(c, events); Active(now) && now.inst.status.au.phase.RollingBack?
    ensures var now := Run(c, events); var end := Reconcile(now, i, Smooth).w.db;
            && LastAvailable(now.history).Some?
            && var (version, running) := LastAvailable(now.history).value;
            && end.inst.spec.tag == running
            && end.history == After(now.history, RolledBack(version, running))
            && end.inst.status.au.pending == "" && end.inst.status.au.failed == version
            && end.inst.status.au.rollbacks == now.inst.status.au.rollbacks + 1
  {
    RunKeeps(parse, c, events);
    RollbackStep(Run(c, events), i);
  }

  lemma {:induction false} RollbackStep(c: Cluster, i: Inputs)
    requires Active(c) && c.inst.status.au.phase.RollingBack?
    requires c.inst.status.au.pending != "" && c.inst.status.au.previous != "" && c.inst.status.au.backupPath == ""
    ensures var end, au := Reconcile(c, i, Smooth).w.db, c.inst.status.au;
            && end.inst.spec.tag == au.previous
            && end.history == After(c.history, RolledBack(au.pending, au.previous))
            && end.inst.status.au.pending == "" && end.inst.status.au.failed == au.pending
            && end.inst.status.au.rollbacks == au.rollbacks + 1
  {
  }

  /** Whatever ends the backup phase leaves replicas nonzero. */
  lemma {:induction false} BackupExitScalesUp(parse: Semver.Parser, c: Cluster, events: seq<Event>)
    requires Admissible(parse, c, events) && events != []
    ensures var before, after := Run(c, events[..|events| - 1]), Run(c, events);
            before.inst.status.au.phase.BackingUp? && !after.inst.status.au.phase.BackingUp? ==>
              after.sts.Some? && Replicas(after.sts.value) > 0
  {
    AdmissibleBefore(parse, c, events);
    LastStepKeeps(parse, c, events);
  }

  /** While an update is pending the pod template is the old one, or the new one exactly if the
      suspended instance was reconciled since the tag was patched. So this, and not the update itself,
      decides which version a successful health check has looked at. */
  lemma {:induction false} TemplateDuringUpdate(parse: Semver.Parser, c: Cluster, events: seq<Event>, i: Inputs)
    requires Admissible(parse, c, events) && Run(c, events).inst.status.au.pending != ""
    ensures var now := Run(c, events);
            && now.sts.Some? && LastAvailable(now.history).Some?
            && var (version, running) := LastAvailable(now.history).value;
            && now.inst.status.au.pending == version != running
            && now.sts.value.template == (if Renewed(c, events) then version else running)
            && (Active(now) && now.inst.status.au.phase.HealthCheck?
                && now.sts.value.ready > 0 && now.sts.value.updated > 0 ==>
                  var end := Reconcile(now, i, Smooth).w.db;
                  && end.history == After(now.history, Confirmed(version))
                  && end.inst.status.au.pending == "" && end.inst.spec.tag == version
                  && end.sts == now.sts)
  {
    RunKeeps(parse, c, events);
    var h := Run(c, events).history;
    NewerDiffers(parse, LastAvailable(h).value.0, LastAvailable(h).value.1);
  }

  /** An instance that is never suspended has every update confirmed on the old template. */
  lemma {:induction false} ConfirmedOnOldTemplate(parse: Semver.Parser, c: Cluster, events: seq<Event>)
    requires Admissible(parse, c, events) && Run(c, events).inst.status.au.pending != ""
    requires forall k :: 0 <= k < |events| ==> !Run(c, events[..k]).inst.spec.suspended
    ensures var now := Run(c, events);
            && now.sts.Some? && LastAvailable(now.history).Some?
            && now.sts.value.template == LastAvailable(now.history).value.1 != now.inst.status.au.pending
  {
    RunKeeps(parse, c, events);
    NeverRenewed(c, events);
    var h := Run(c, events).history;
    NewerDiffers(parse, LastAvailable(h).value.0, LastAvailable(h).value.1);
  }

  lemma {:induction false} NeverRenewed(c: Cluster, events: seq<Event>)
    requires forall k :: 0 <= k < |events| ==> !Run(c, events[..k]).inst.spec.suspended
    ensures !Renewed(c, events)
  {
    if events != [] {
      var init := events[..|events| - 1];
      forall k | 0 <= k < |init| ensures !Run(c, init[..k]).inst.spec.suspended {
        assert init[..k] == events[..k];
      }
      NeverRenewed(c, init);
      assert init == events[..|events| - 1];
    }
  }

  // ----- what failures and stops change -----

  /** How an update is stranded, with or without a backup before it: the process stops right after the
      patch, and the restarted controller takes the new tag for the previous one. */
  lemma {:induction false} StopAfterPatchStrands(c: Cluster, i: Inputs)
    requires Active(c) && c.inst.status.phase.Updating? && c.inst.spec.options.rollbackOnFailure
    requires c.inst.status.au.phase.ApplyingUpdate? || (c.inst.status.au.phase.Idle? && !NeedsBackup(c.inst.spec))
    requires c.inst.status.au.pending != "" && c.inst.spec.tag != c.inst.status.au.pending
    ensures var stopped := Reconcile(c, i, Next(true, Next(true, Next(true, Stopped)))).w.db;
            var end := Reconcile(stopped, i, Smooth).w.db;
            && stopped.inst.status.au.previous == c.inst.spec.tag && Strands(stopped)
            && end.inst.status.au.phase.HealthCheck?
            && end.inst.status.au.previous == end.inst.status.au.pending == c.inst.status.au.pending
  {
    var stopped := Reconcile(c, i, Next(true, Next(true, Next(true, Stopped)))).w.db;
    assert Strands(stopped) && stopped.inst.status.au.pending == c.inst.status.au.pending;
    assert Active(stopped) && stopped.inst.status.phase.Updating? && stopped.inst.spec.options == c.inst.spec.options;
    RestartAfterPatch(stopped, i);
  }

  lemma {:induction false} RestartAfterPatch(c: Cluster, i: Inputs)
    requires Active(c) && c.inst.status.phase.Updating? && c.inst.spec.options.rollbackOnFailure
    requires c.inst.status.au.pending != "" && Strands(c)
    ensures var end := Reconcile(c, i, Smooth).w.db;
            && end.inst.status.au.phase.HealthCheck?
            && end.inst.status.au.previous == end.inst.status.au.pending == c.inst.status.au.pending
  {
  }

  /** The state in which a pre-update backup is under way. */
  predicate BackupUnderWay(c: Cluster) {
    && Active(c) && c.inst.status.phase.Updating? && c.inst.status.au.phase.BackingUp?
    && c.inst.status.au.pending != "" && NeedsBackup(c.inst.spec)
    && ScaledDown(c) && JobUnfinished(c, PreUpdateBackup) && Readable(c.secret)
  }

  /** `n` calls succeed, the next returns an error, and the others succeed. */
  function ErrorAt(n: nat): Fate {
    if n == 0 then Next(false, Smooth) else Next(true, ErrorAt(n - 1))
  }

  /** The calls a backup step makes before its status write: StatefulSet, pods, Secret, the mirror of
      static keys, and the Job. */
  function Reads(creds: Credentials): nat {
    if creds.envAuth then 4 else 5
  }

  /** An error among the next `calls` calls ends the step; otherwise it is still to come. */
  predicate Interrupted(w: World, b: BackupRet, n: nat, calls: nat) {
    if n < calls then b.err && b.w == w.(fate := Smooth)
    else !b.err && !b.done && !b.requeue.Never? && b.w == w.(fate := ErrorAt(n - calls))
  }

  lemma {:induction false} JobError(w: World, i: Inputs, creds: Credentials, n: nat)
    requires w.fate == ErrorAt(n) && JobUnfinished(w.db, PreUpdateBackup)
    ensures Interrupted(w, PreUpdateJob(w, i, creds), n, 1)
  {
  }

  lemma {:induction false} CredentialsError(w: World, i: Inputs, n: nat)
    requires w.fate == ErrorAt(n) && JobUnfinished(w.db, PreUpdateBackup) && Readable(w.db.secret)
    ensures Interrupted(w, PreUpdateCredentials(w, i), n, Reads(ParseSecret(w.db.secret.value).value) - 2)
  {
    var creds := ParseSecret(w.db.secret.value).value;
    if n >= 1 {
      if creds.envAuth {
        JobError(w.(fate := ErrorAt(n - 1)), i, creds, n - 1);
      } else if n >= 2 {
        JobError(w.(fate := ErrorAt(n - 2)), i, creds, n - 2);
      }
    }
  }

  lemma {:induction false} BackupError(w: World, i: Inputs, n: nat)
    requires w.fate == ErrorAt(n) && JobUnfinished(w.db, PreUpdateBackup) && Readable(w.db.secret) && ScaledDown(w.db)
    ensures Interrupted(w, DrivePreUpdateBackup(w, i), n, Reads(ParseSecret(w.db.secret.value).value))
  {
    if n >= 2 {
      CredentialsError(w.(fate := ErrorAt(n - 2)), i, n - 2);
    }
  }

  lemma {:induction false} AbortStartsWorkload(w: World)
    requires w.fate.Smooth? && ScaledDown(w.db)
    ensures var r := AbortUpdate(w, BackupFailed);
            && PodsWanted(r.w.db) && r.w.db.jobs == w.db.jobs && !r.requeue.Never? && r.w.fate.Smooth?
            && r.w.inst.status.au.pending == ""
  {
  }

  /** A status write that fails lets the same reconcile go on to the resources. */
  lemma {:induction false} RestStartsWorkload(w: World, saved: Status, i: Inputs)
    requires w.fate.Smooth? && ScaledDown(w.db) && !w.inst.spec.suspended
    requires w.inst.status.au.pending != "" && w.inst.status.au.phase.BackingUp?
    ensures var end := ReconcileRest(w, saved, i).w.db;
            (PodsWanted(end) <==> !w.inst.spec.options.hpa) && end.jobs == w.db.jobs
  {
    var w1 := ReconcileResources(w).w;
    var w2 := SetPhase(w1, ObservedPhase(w1, i));
    assert ReconcileAutoUpdate(w2, i).w.db.sts == w1.db.sts && ReconcileAutoUpdate(w2, i).w.db.jobs == w.db.jobs;
  }

  lemma {:induction false} StepError(w: World, i: Inputs, n: nat)
    requires BackupUnderWay(w.db) && w.inst == w.db.inst && w.fate == ErrorAt(n)
    ensures var end, calls := ReconcileProvisioned(w, i).w.db, Reads(ParseSecret(w.db.secret.value).value);
            && end.jobs == w.db.jobs
            && (PodsWanted(end) <==> n < calls || (n == calls && !w.inst.spec.options.hpa))
  {
    var calls := Reads(ParseSecret(w.db.secret.value).value);
    var b := DrivePreUpdateBackup(w, i);
    BackupError(w, i, n);
    if n < calls {
      AbortStartsWorkload(b.w);
    } else {
      var w1 := SetAutoUpdate(b.w, b.w.inst.status.au.(phase := BackingUp));
      if n == calls {
        RestStartsWorkload(w1.(fate := Smooth), w.inst.status, i);
      }
    }
  }

  /** Mutual exclusion rests on the absence of errors. A single error in a backup step, wherever it comes,
      starts the workload beside the running Job exactly if it hits one of the calls before the step's
      status write, or that write while no HPA keeps the replica count. */
  lemma {:induction false} ErrorStartsWorkload(c: Cluster, i: Inputs, n: nat)
    requires BackupUnderWay(c)
    ensures var end, calls := Reconcile(c, i, ErrorAt(n)).w.db, Reads(ParseSecret(c.secret.value).value);
            && JobUnfinished(end, PreUpdateBackup)
            && (PodsWanted(end) <==> 1 <= n <= calls || (n == calls + 1 && !c.inst.spec.options.hpa))
  {
    if n > 0 {
      StepError(World(c, c.inst, ErrorAt(n - 1)), i, n - 1);
    }
  }

  /** Making the Secret unreadable during a backup, in any way, aborts the update and scales the workload
      up while the Job is still running. */
  lemma {:induction false} LosingCredentialsStartsWorkload(c: Cluster, i: Inputs, secret: Option<Secret>)
    requires BackupUnderWay(c) && !Readable(secret)
    ensures var end := Reconcile(Step(c, ChangeSecret(secret)), i, Smooth).w.db;
            JobUnfinished(end, PreUpdateBackup) && PodsWanted(end) && end.inst.status.au.pending == ""
  {
    var d := Step(c, ChangeSecret(secret));
    var w := World(d, d.inst, Smooth);
    assert DrivePreUpdateBackup(w, i) == BackupRet(w, Never, false, true);
    AbortStartsWorkload(w);
  }

  /** The backup phase ends with success exactly when a completed Job of that name exists; nothing
      asks whether the Job belongs to this update. */
  lemma {:induction false} AnyCompletedJobCounts(c: Cluster, i: Inputs)
    requires Active(c) && c.inst.status.phase.Updating? && NeedsBackup(c.inst.spec)
    requires c.inst.status.au.pending != "" && (c.inst.status.au.phase.Idle? || c.inst.status.au.phase.BackingUp?)
    requires ScaledDown(c) && Readable(c.secret) && c.inst.spec.tag != c.inst.status.au.pending
    ensures Reconcile(c, i, Smooth).w.db.inst.spec.tag == c.inst.status.au.pending <==>
              PreUpdateBackup in c.jobs && VerdictOf(c.jobs[PreUpdateBackup].conditions).Completed?
  {
    var w := World(c, c.inst, Smooth);
    JobDecides(w, i);
    BackUpFirstTag(w, i);
    BackupStepOnly(c, i);
  }

  /** A reconcile in the backup phase is a backup step and a status write. */
  lemma {:induction false} BackupStepOnly(c: Cluster, i: Inputs)
    requires Active(c) && c.inst.status.phase.Updating? && NeedsBackup(c.inst.spec)
    requires c.inst.status.au.pending != "" && (c.inst.status.au.phase.Idle? || c.inst.status.au.phase.BackingUp?)
    requires !BackUpFirst(World(c, c.inst, Smooth), i).requeue.Never?
    ensures Reconcile(c, i, Smooth).w.db.inst.spec == BackUpFirst(World(c, c.inst, Smooth), i).w.db.inst.spec
  {
    assert ReconcileAutoUpdate(World(c, c.inst, Smooth), i) == BackUpFirst(World(c, c.inst, Smooth), i);
  }

  /** The tag moves exactly when the backup is done. */
  lemma {:induction false} BackUpFirstTag(w: World, i: Inputs)
    requires Calm(w) && ScaledDown(w.db) && Readable(w.db.secret) && w.inst.status.au.pending != w.inst.spec.tag
    ensures var r := BackUpFirst(w, i);
            && r.w.fate.Smooth? && !r.requeue.Never?
            && (r.w.db.inst.spec.tag == w.inst.status.au.pending <==> DrivePreUpdateBackup(w, i).done)
  {
    var b := DrivePreUpdateBackup(w, i);
    JobDecides(w, i);
    if b.done {
      RecordOnlySetsPath(b.w);
      ApplySetsTag(RecordBackupPath(b.w));
    } else if b.err {
      AbortKeepsTag(b.w, BackupFailed);
    }
  }

  lemma {:induction false} ApplySetsTag(w: World)
    requires Calm(w)
    ensures var r := ApplyUpdate(w);
            r.w.fate.Smooth? && !r.requeue.Never? && r.w.db.inst.spec.tag == w.inst.status.au.pending
  {
  }

  lemma {:induction false} AbortKeepsTag(w: World, reason: Reason)
    requires Calm(w)
    ensures var r := AbortUpdate(w, reason);
            r.w.fate.Smooth? && !r.requeue.Never? && r.w.db.inst.spec == w.db.inst.spec
  {
  }

  lemma {:induction false} JobDecides(w: World, i: Inputs)
    requires Calm(w) && ScaledDown(w.db) && Readable(w.db.secret)
    ensures var b := DrivePreUpdateBackup(w, i);
            && Calm(b.w) && b.w.inst == w.inst && b.w.db.inst == w.db.inst && (b.err ==> !b.done) && (!b.err && !b.done ==> !b.requeue.Never?)
            && (b.done <==> PreUpdateBackup in w.db.jobs && VerdictOf(w.db.jobs[PreUpdateBackup].conditions).Completed?)
  {
  }

  /** After a suspension the workload comes back exactly when no HPA manages it: under an HPA the
      existing replica count, zero, is kept, and an HPA does not scale up from zero. */
  lemma {:induction false} ResumeWakesUnlessHpa(c: Cluster, i: Inputs)
    requires Active(c) && c.inst.status.au.pending == ""
    requires c.sts.Some? && c.sts.value.replicas == Some(0)
    ensures PodsWanted(Reconcile(c, i, Smooth).w.db) <==> !c.inst.spec.options.hpa
  {
    var w := ReconcileResources(World(c, c.inst, Smooth)).w;
    CheckKeepsReplicas(SetPhase(w, ObservedPhase(w, i)), i);
  }

  lemma {:induction false} CheckKeepsReplicas(w: World, i: Inputs)
    requires w.inst.status.au.pending == ""
    ensures ReconcileAutoUpdate(w, i).w.db.sts == w.db.sts
  {
  }
}
