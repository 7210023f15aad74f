/** Runs in which no API call returns an error but the process may stop at any call: what still keeps
    the workload off the volume during a backup, and what becomes of the previous version. */
module StopSafety {
  import opened Wrappers
  import opened Rclone
  import opened Cluster
  import opened AutoUpdate
  import opened Deletion
  import opened Lifecycle
  import opened DeletionFrame
  import opened Resilience
  import opened UpdateSafety
  import Semver

  /** Every call succeeds, up to a stop if there is one. */
  predicate Unbroken(fate: Fate) {
    match fate
    case Smooth => true
    case Stopped => true
    case Next(ok, rest) => ok && Unbroken(rest)
  }

  // ----- the invariant -----

  /** A reconcile has stopped with the tag patched and the health check not yet entered. */
  predicate Strands(c: Cluster) {
    c.inst.status.au.phase.ApplyingUpdate? && c.inst.spec.tag == c.inst.status.au.pending
  }

  /** Whether that has happened to the pending update. */
  predicate StrandedNow(stranded: bool, c: Cluster) {
    c.inst.status.au.pending != "" && (stranded || Strands(c))
  }

  /** The version a rollback will go back to. */
  function Expected(stranded: bool, version: string, running: string): string {
    if stranded then version else running
  }

  predicate TagAndPrevious(stranded: bool, inst: Instance, version: string, running: string) {
    var au, tag := inst.status.au, inst.spec.tag;
    match au.phase
    case Idle => tag == running && !stranded
    case BackingUp => tag == running && !stranded
    case ApplyingUpdate =>
      || (tag == running == au.previous && !stranded)
      || (tag == version && stranded && (au.previous == running || au.previous == version))
    case HealthCheck => tag == version && au.previous == Expected(stranded, version, running)
    case RollingBack => (tag == version || tag == au.previous) && au.previous == Expected(stranded, version, running)
  }

  predicate Traced(parse: Semver.Parser, stranded: bool, inst: Instance, h: History) {
    var au := inst.status.au;
    && (au.pending == "" ==> au.phase.Idle?)
    && (au.phase.BackingUp? ==> NeedsBackup(inst.spec))
    && (au.pending != "" ==>
          && !inst.status.phase.Unset? && !inst.status.phase.Pending?
          && LastAvailable(h).Some?
          && var (version, running) := LastAvailable(h).value;
          && au.pending == version && Newer(parse, version, running)
          && TagAndPrevious(stranded, inst, version, running))
  }

  /** While the backup Job is unfinished nothing else touches the volume. */
  predicate Excluded(c: Cluster) {
    JobUnfinished(c, PreUpdateBackup) ==>
      && ScaledDown(c) && c.inst.status.au.pending != ""
      && (c.inst.status.au.phase.Idle? || c.inst.status.au.phase.BackingUp?)
      && NeedsBackup(c.inst.spec) && Readable(c.secret)
  }

  /** What a run is about: the parser, whether the Secret is left readable during backups, and whether
      the pending update has been stranded before the event at hand. */
  datatype Context = Context(parse: Semver.Parser, guarded: bool, stranded: bool)

  predicate Safe(k: Context, c: Cluster) {
    && Traced(k.parse, StrandedNow(k.stranded, c), c.inst, c.history)
    && (k.guarded ==> Excluded(c))
  }

  /** A reconcile under way: the server's state is safe at every moment, and the controller's own view
      as long as the process runs. */
  predicate Going(k: Context, w: World) {
    && Unbroken(w.fate) && Safe(k, w.db)
    && (!w.fate.Stopped? ==> w.inst.spec == w.db.inst.spec && Safe(k, View(w)))
  }

  /** The result of a controller function: to be requeued unless the process stopped. */
  predicate Requeued(k: Context, r: Ret) {
    Going(k, r.w) && (r.requeue.Never? ==> r.w.fate.Stopped?)
  }

  predicate Quiet(k: Context, w: World) {
    k.guarded ==> !JobUnfinished(w.db, PreUpdateBackup)
  }

  lemma CallKeeps(w: World)
    requires Unbroken(w.fate)
    ensures var r := Call(w);
            && Unbroken(r.w.fate) && r.w.db == w.db && r.w.inst == w.inst
            && (w.fate.Stopped? ==> r.w.fate.Stopped? && !r.ok) && (!r.ok ==> w.fate.Stopped?)
  {
  }

  // ----- the update -----

  lemma {:induction false} WriteGoes(k: Context, w: World)
    requires Going(k, w)
    ensures Going(k, WriteStatus(w).w) && WriteStatus(w).w.inst == w.inst
    ensures if WriteStatus(w).ok then WriteStatus(w).w.db.inst.status == w.inst.status else WriteStatus(w).w.fate.Stopped?
    ensures WriteStatus(w).w.db.(inst := w.db.inst) == w.db
  {
  }

  lemma {:induction false} EmitGoes(k: Context, w: World, n: Notice)
    requires Going(k, w) && !n.Available?
    ensures Going(k, Emit(w, n)) && Emit(w, n).fate == w.fate && Emit(w, n).inst == w.inst
    ensures Emit(w, n).db.jobs == w.db.jobs
  {
  }

  lemma {:induction false} SettledView(k: Context, w: World, au: UpdateStatus, phase: Phase)
    requires Going(k, w) && Quiet(k, w) && au.pending == "" && au.phase.Idle?
    ensures Going(k, SetPhase(SetAutoUpdate(w, au), phase))
  {
  }

  lemma {:induction false} AbortGoes(k: Context, w: World, reason: Reason)
    requires Going(k, w) && (!w.fate.Stopped? ==> Quiet(k, w))
    ensures Requeued(k, AbortUpdate(w, reason))
  {
    if !w.fate.Stopped? {
      var w1 := SetPhase(SetAutoUpdate(w, w.inst.status.au.(pending := "", phase := Idle)), Running);
      SettledView(k, w, w.inst.status.au.(pending := "", phase := Idle), Running);
      EmitGoes(k, w1, Aborted(reason));
      var w2 := Emit(w1, Aborted(reason));
      WriteGoes(k, w2);
      var Reply(w3, ok) := WriteStatus(w2);
      if ok {
        var Reply(w4, got) := Call(w3);
        if got && w4.db.sts.Some? && w4.db.sts.value.replicas == Some(0) {
          ScaleGoes(k, w4, 1);
        }
      }
    }
  }

  lemma {:induction false} ScaleGoes(k: Context, w: World, n: nat)
    requires Going(k, w) && w.db.sts.Some? && (n > 0 ==> Quiet(k, w))
    ensures var r := PatchReplicas(w, n);
            && Going(k, r.w) && r.w.inst == w.inst && r.w.db.jobs == w.db.jobs && (!r.ok ==> r.w.fate.Stopped?)
            && r.w.db.inst == w.db.inst && r.w.db.history == w.db.history
  {
  }

  lemma {:induction false} ConfirmGoes(k: Context, w: World)
    requires Going(k, w) && Quiet(k, w)
    ensures Requeued(k, ConfirmUpdate(w))
  {
    var au := w.inst.status.au.(
      current := w.inst.status.au.pending, pending := "", phase := Idle, previous := "", backupPath := "", rollbacks := 0);
    var w1 := SetPhase(SetAutoUpdate(w, au), Running);
    SettledView(k, w, au, Running);
    WriteGoes(k, w1);
    EmitGoes(k, WriteStatus(w1).w, Confirmed(w.inst.status.au.pending));
  }

  lemma {:induction false} HealthCheckGoes(k: Context, w: World)
    requires Going(k, w) && w.inst.status.au.pending != "" && w.inst.status.au.phase.HealthCheck? && Quiet(k, w)
    ensures Requeued(k, DriveHealthCheck(w))
  {
    var Reply(w1, ok) := Call(w);
    if ok && w1.db.sts.Some? {
      if w1.db.sts.value.ready > 0 && w1.db.sts.value.updated > 0 {
        ConfirmGoes(k, w1);
      } else {
        WaitGoes(k, w1);
      }
    }
  }

  lemma {:induction false} WaitGoes(k: Context, w: World)
    requires Going(k, w) && w.inst.status.au.pending != "" && w.inst.status.au.phase.HealthCheck?
    ensures var since := if w.inst.status.au.lastUpdate.Some? then w.inst.status.au.lastUpdate.value else w.db.now;
            var w1 := SetAutoUpdate(w, w.inst.status.au.(lastUpdate := Some(since)));
            var w2 := SetPhase(SetAutoUpdate(w1, w1.inst.status.au.(phase := RollingBack)), Updating);
            && Going(k, w1) && Going(k, WriteStatus(w2).w)
            && Going(k, Emit(WriteStatus(w2).w, HealthCheckFailed(w.inst.status.au.pending)))
            && (!WriteStatus(w2).ok ==> WriteStatus(w2).w.fate.Stopped?) && WriteStatus(w2).w.inst == w2.inst
  {
    var since := if w.inst.status.au.lastUpdate.Some? then w.inst.status.au.lastUpdate.value else w.db.now;
    var w1 := SetAutoUpdate(w, w.inst.status.au.(lastUpdate := Some(since)));
    var w2 := SetPhase(SetAutoUpdate(w1, w1.inst.status.au.(phase := RollingBack)), Updating);
    assert Going(k, w2);
    WriteGoes(k, w2);
    EmitGoes(k, WriteStatus(w2).w, HealthCheckFailed(w.inst.status.au.pending));
  }

  lemma {:induction false} RollbackGoes(k: Context, w: World)
    requires Going(k, w) && w.inst.status.au.pending != "" && w.inst.status.au.phase.RollingBack? && Quiet(k, w)
    requires w.inst.status.au.backupPath == "" && w.db.inst.status == w.inst.status
    ensures Requeued(k, DriveRollback(w))
  {
    if w.fate.Stopped? {
      AbortGoes(k, w, NoPreviousVersion);
    } else {
      var previous := w.inst.status.au.previous;
      RevertGoes(k, w);
      var Reply(w1, ok) := PatchTag(w, previous);
      if ok {
        RecordGoes(k, w1, previous);
      }
    }
  }

  lemma {:induction false} RevertGoes(k: Context, w: World)
    requires Going(k, w) && !w.fate.Stopped? && w.inst.status.au.pending != "" && w.inst.status.au.phase.RollingBack?
    requires w.db.inst.status == w.inst.status
    ensures w.inst.status.au.previous != ""
    ensures var r := PatchTag(w, w.inst.status.au.previous);
            Going(k, r.w) && r.w.inst.status == w.inst.status && r.w.db.jobs == w.db.jobs && (!r.ok ==> r.w.fate.Stopped?)
  {
  }

  lemma {:induction false} RecordGoes(k: Context, w: World, previous: string)
    requires Going(k, w) && Quiet(k, w)
    ensures Requeued(k, RecordRollback(w, previous))
  {
    var au := w.inst.status.au;
    var done := au.(
      failed := au.pending, pending := "", phase := Idle, backupPath := "", previous := "",
      rollbacks := au.rollbacks + 1, current := previous);
    var w1 := SetPhase(SetAutoUpdate(w, done), Provisioning);
    SettledView(k, w, done, Provisioning);
    WriteGoes(k, w1);
    EmitGoes(k, WriteStatus(w1).w, RolledBack(au.pending, previous));
  }

  // ----- applying -----

  /** The state in which the tag is to be patched, or has been. */
  predicate Applying(k: Context, w: World) {
    && Going(k, w) && Quiet(k, w)
    && (!w.fate.Stopped? ==>
          && w.inst.status.au.pending != "" && LastAvailable(w.db.history).Some?
          && w.inst.status.au.phase.ApplyingUpdate?
          && w.inst.status.au.previous == Expected(k.stranded, w.inst.status.au.pending, LastAvailable(w.db.history).value.1))
  }

  lemma {:induction false} StartGoes(k: Context, w: World)
    requires Applying(k, w) && (!w.fate.Stopped? ==> w.inst.spec.tag == w.inst.status.au.pending)
    ensures Requeued(k, StartHealthCheck(w, w.inst.status.au.pending))
  {
    var w1 := SetPhase(SetAutoUpdate(w, w.inst.status.au.(phase := HealthCheck, lastUpdate := Some(w.db.now))), Provisioning);
    assert Going(k, w1);
    WriteGoes(k, w1);
    EmitGoes(k, WriteStatus(w1).w, Applied(w.inst.status.au.pending, false));
  }

  lemma {:induction false} FinishGoes(k: Context, w: World)
    requires Applying(k, w)
    ensures Requeued(k, FinishWithoutHealthCheck(w, w.inst.status.au.pending))
  {
    var au := w.inst.status.au.(
      current := w.inst.status.au.pending, pending := "", phase := Idle, lastUpdate := Some(w.db.now),
      previous := "", backupPath := "", rollbacks := 0);
    var w1 := SetPhase(SetAutoUpdate(w, au), Provisioning);
    SettledView(k, w, au, Provisioning);
    WriteGoes(k, w1);
    EmitGoes(k, WriteStatus(w1).w, Applied(w.inst.status.au.pending, true));
  }

  lemma {:induction false} ScaleBackGoes(k: Context, w: World)
    requires Applying(k, w)
    ensures var r := ScaleBackUp(w);
            Applying(k, r.w) && r.w.inst == w.inst && (!r.ok ==> r.w.fate.Stopped?) && (w.fate.Stopped? ==> r.w.fate.Stopped?)
  {
    if NeedsBackup(w.inst.spec) {
      var Reply(w1, ok) := Call(w);
      if ok && w1.db.sts.Some? && w1.db.sts.value.replicas == Some(0) {
        ScaleGoes(k, w1, 1);
      }
    }
  }

  lemma {:induction false} AfterPatchGoes(k: Context, w: World)
    requires Applying(k, w) && (!w.fate.Stopped? ==> w.inst.spec.tag == w.inst.status.au.pending)
    ensures Requeued(k, AfterTagPatch(w, w.inst.status.au.pending))
  {
    var Reply(w1, ok) := ScaleBackUp(w);
    ScaleBackGoes(k, w);
    if !ok {
      AbortGoes(k, w1, ScaleUpFailed);
    } else if w1.inst.spec.options.rollbackOnFailure {
      StartGoes(k, w1);
    } else {
      FinishGoes(k, w1);
    }
  }

  lemma {:induction false} PatchGoes(k: Context, w: World)
    requires Applying(k, w) && !w.fate.Stopped? && w.db.inst.status == w.inst.status
    ensures var r := PatchTag(w, w.inst.status.au.pending);
            && Applying(k, r.w) && r.w.inst.status == w.inst.status && (!r.ok ==> r.w.fate.Stopped?)
            && r.w.inst.spec.tag == w.inst.status.au.pending
  {
  }

  lemma {:induction false} ApplyGoes(k: Context, w: World)
    requires Going(k, w) && Quiet(k, w)
    requires !w.fate.Stopped? ==>
      && w.inst.status.au.pending != "" && (Strands(View(w)) ==> k.stranded)
      && (w.inst.status.au.phase.Idle? || w.inst.status.au.phase.BackingUp? || w.inst.status.au.phase.ApplyingUpdate?)
    ensures Requeued(k, ApplyUpdate(w))
  {
    if !w.fate.Stopped? {
      var pending := w.inst.status.au.pending;
      var w1 := SetAutoUpdate(w, w.inst.status.au.(previous := w.inst.spec.tag, phase := ApplyingUpdate));
      assert Applying(k, w1);
      WriteGoes(k, w1);
      var Reply(w2, ok) := WriteStatus(w1);
      if ok {
        if w2.fate.Stopped? {
          AbortGoes(k, PatchTag(w2, pending).w, PatchFailed);
        } else {
          PatchGoes(k, w2);
          var Reply(w3, patched) := PatchTag(w2, pending);
          if patched {
            AfterPatchGoes(k, w3);
          } else {
            AbortGoes(k, w3, PatchFailed);
          }
        }
      }
    }
  }

  // ----- the backup phase -----

  /** The backup changes neither view of the instance. It fails or completes only with no Job at work;
      otherwise the phase may become BackingUp. */
  predicate Backed(k: Context, w: World, b: BackupRet) {
    && Going(k, b.w) && b.w.inst == w.inst && b.w.db.inst == w.db.inst && b.w.db.history == w.db.history
    && (b.err && !b.w.fate.Stopped? ==> Quiet(k, b.w))
    && (b.done ==> Quiet(k, b.w))
    && (!b.err && !b.done ==> !b.requeue.Never? && NeedsBackup(w.inst.spec))
  }

  predicate BackingUpWorld(k: Context, w: World) {
    && Going(k, w)
    && (!w.fate.Stopped? ==>
          && w.inst.status.au.pending != "" && NeedsBackup(w.inst.spec) && w.db.inst.status == w.inst.status
          && (w.inst.status.au.phase.Idle? || w.inst.status.au.phase.BackingUp?))
  }

  lemma {:induction false} StartJobGoes(k: Context, w: World, creds: Credentials, path: string)
    requires BackingUpWorld(k, w) && ScaledDown(w.db) && Readable(w.db.secret) && PreUpdateBackup !in w.db.jobs
    ensures Backed(k, w, StartPreUpdateJob(w, creds, path))
  {
  }

  lemma {:induction false} JobGoes(k: Context, w: World, i: Inputs, creds: Credentials)
    requires BackingUpWorld(k, w) && ScaledDown(w.db) && Readable(w.db.secret)
    ensures Backed(k, w, PreUpdateJob(w, i, creds))
  {
    var Reply(w1, ok) := Call(w);
    if ok && PreUpdateBackup !in w1.db.jobs {
      StartJobGoes(k, w1, creds, PreUpdatePath(w1.inst.spec, i.stamp));
    }
  }

  lemma {:induction false} ReadGoes(k: Context, w: World)
    requires BackingUpWorld(k, w)
    ensures var (w1, creds) := ReadCredentials(w);
            && BackingUpWorld(k, w1) && w1.db == w.db && w1.inst == w.inst
            && (creds.Usable? ==> Readable(w.db.secret))
            && (!creds.Usable? && !w1.fate.Stopped? ==> !Readable(w.db.secret))
  {
    CallKeeps(w);
  }

  lemma {:induction false} MirrorGoes(k: Context, w: World, creds: Credentials)
    requires BackingUpWorld(k, w)
    ensures var r := MirrorSecret(w, creds);
            BackingUpWorld(k, r.w) && r.w.db == w.db && r.w.inst == w.inst && (!r.ok ==> r.w.fate.Stopped?)
  {
    CallKeeps(w);
  }

  /** Without a readable Secret no backup Job is at work. */
  lemma {:induction false} CredentialsGo(k: Context, w: World, i: Inputs)
    requires BackingUpWorld(k, w) && ScaledDown(w.db)
    ensures Backed(k, w, PreUpdateCredentials(w, i))
  {
    ReadGoes(k, w);
    var (w1, creds) := ReadCredentials(w);
    if creds.Usable? {
      MirrorGoes(k, w1, creds.creds);
      JobGoes(k, MirrorSecret(w1, creds.creds).w, i, creds.creds);
    }
  }

  lemma {:induction false} AwaitGoes(k: Context, w: World, i: Inputs)
    requires BackingUpWorld(k, w) && w.db.sts.Some? && w.db.sts.value.replicas == Some(0)
    ensures Backed(k, w, AwaitTermination(w, i))
  {
    var Reply(w1, ok) := Call(w);
    if ok && w1.db.pods == 0 {
      CredentialsGo(k, w1, i);
    }
  }

  lemma {:induction false} BackupGoes(k: Context, w: World, i: Inputs)
    requires BackingUpWorld(k, w)
    ensures Backed(k, w, DrivePreUpdateBackup(w, i))
  {
    var Reply(w1, ok) := Call(w);
    if ok && w1.db.sts.Some? {
      if w1.db.sts.value.replicas == Some(0) {
        AwaitGoes(k, w1, i);
      } else {
        ScaleGoes(k, w1, 0);
      }
    }
  }

  lemma {:induction false} RecordPathGoes(k: Context, w: World)
    requires Going(k, w)
    ensures var x := RecordBackupPath(w);
            && Going(k, x) && x.db == w.db && x.inst.spec == w.inst.spec
            && x.inst.status.au == w.inst.status.au.(backupPath := x.inst.status.au.backupPath)
  {
    var Reply(w1, ok) := Call(w);
    CallKeeps(w);
    CallKeeps(w1);
    if ok && PreUpdateBackup in w1.db.jobs {
      var (w2, creds) := ReadCredentials(w1);
      var path := if creds.Usable? then LastBackupPath(w2.db.jobs[PreUpdateBackup].args, creds.creds) else "";
      FreePath(k, w2, path);
    } else {
      FreePath(k, w1, "");
    }
  }

  lemma {:induction false} FreePath(k: Context, w: World, path: string)
    requires Going(k, w)
    ensures Going(k, SetAutoUpdate(w, w.inst.status.au.(backupPath := path)))
  {
  }

  lemma {:induction false} BackUpFirstGoes(k: Context, w: World, i: Inputs)
    requires BackingUpWorld(k, w)
    ensures Requeued(k, BackUpFirst(w, i))
  {
    BackupGoes(k, w, i);
    var b := DrivePreUpdateBackup(w, i);
    if b.err {
      AbortGoes(k, b.w, BackupFailed);
    } else if b.done {
      RecordPathGoes(k, b.w);
      ApplyGoes(k, RecordBackupPath(b.w));
    } else {
      var w1 := SetAutoUpdate(b.w, b.w.inst.status.au.(phase := BackingUp));
      assert Going(k, w1);
      WriteGoes(k, w1);
    }
  }

  /** A reconcile that has only read so far. */
  predicate Reading(k: Context, w: World) {
    && Going(k, w) && w.inst == w.db.inst && w.inst.status.au.backupPath == ""
    && (Strands(w.db) ==> k.stranded) && (k.stranded ==> w.inst.status.au.pending != "")
  }

  lemma {:induction false} DriveGoes(k: Context, w: World, i: Inputs)
    requires Reading(k, w) && w.inst.status.au.pending != ""
    ensures Requeued(k, DriveUpdateStateMachine(w, i))
  {
    var au := w.inst.status.au;
    if au.phase.HealthCheck? {
      HealthCheckGoes(k, w);
    } else if au.phase.RollingBack? {
      RollbackGoes(k, w);
    } else if !w.inst.status.phase.Updating? {
      WriteGoes(k, SetPhase(w, Updating));
    } else if NeedsBackup(w.inst.spec) && (au.phase.Idle? || au.phase.BackingUp?) {
      BackUpFirstGoes(k, w, i);
    } else {
      ApplyGoes(k, w);
    }
  }

  // ----- the rest of a reconcile -----

  /** Nothing is pending, and the version check may begin. */
  predicate Checking(k: Context, w: World) {
    && Going(k, w) && !k.stranded && w.db.inst.status.au.pending == "" == w.inst.status.au.pending
    && !w.inst.status.phase.Unset? && !w.inst.status.phase.Pending?
  }

  /** The check leaves the stored status alone. */
  predicate Checked(k: Context, w: World, x: World) {
    Going(k, x) && x.db.inst.status == w.db.inst.status && (w.fate.Stopped? ==> x.fate.Stopped?)
  }

  lemma {:induction false} ConsiderGoes(k: Context, w: World, i: Inputs, version: string)
    requires Checking(k, w) && Newer(k.parse, version, w.inst.spec.tag) && i.parse == k.parse
    ensures Checked(k, w, ConsiderVersion(w, i, version).w)
  {
    var au := w.inst.status.au;
    var w1 := ConsiderVersion(w, i, version).w;
    if w1.inst.status.au.pending != "" && !w.fate.Stopped? {
      assert LastAvailable(w1.db.history) == Some((version, w.inst.spec.tag));
    }
  }

  lemma {:induction false} CompareGoes(k: Context, w: World, i: Inputs, version: string)
    requires Checking(k, w) && i.parse == k.parse && Sane(k.parse)
    ensures Checked(k, w, CompareVersions(w, i, version).w)
  {
    var tag := w.inst.spec.tag;
    if i.parse(tag).Some? && i.parse(version).Some? {
      var w1 := SetAutoUpdate(w, w.inst.status.au.(current := tag));
      assert Checking(k, w1);
      if Semver.Below(i.parse(tag).value, i.parse(version).value) {
        ConsiderGoes(k, w1, i, version);
      }
    }
  }

  lemma {:induction false} ResolveLatestGoes(k: Context, w: World, version: string)
    requires Checking(k, w)
    ensures Checked(k, w, ResolveLatest(w, version).w)
  {
    var Reply(w1, ok) := PatchTag(w, version);
    assert Checking(k, w1);
    if ok {
      var w2 := SetAutoUpdate(w1, w1.inst.status.au.(current := version));
      assert Going(k, w2);
      EmitGoes(k, w2, TagResolved(version));
    }
  }

  lemma {:induction false} CheckGoes(k: Context, w: World, i: Inputs)
    requires Checking(k, w) && i.parse == k.parse && Sane(k.parse)
    ensures Checked(k, w, ReconcileAutoUpdate(w, i).w)
  {
    var w1 := SetAutoUpdate(w, w.inst.status.au.(lastCheck := Some(w.db.now)));
    assert Checking(k, w1);
    var answer := LatestVersion(w, i);
    if answer.Some? {
      var w2 := SetAutoUpdate(w1, w1.inst.status.au.(latest := answer.value));
      assert Checking(k, w2);
      CompareGoes(k, w2, i, answer.value);
      ResolveLatestGoes(k, w2, answer.value);
    }
  }

  /** The state in which resources are reconciled: nothing pending, or suspended. */
  predicate Settling(k: Context, w: World) {
    Reading(k, w) && (w.inst.spec.suspended || w.inst.status.au.pending == "")
    && !w.inst.status.phase.Unset? && !w.inst.status.phase.Pending?
  }

  lemma {:induction false} CommitGoes(k: Context, w: World)
    requires Settling(k, w)
    ensures var r := Commit(w, w.db.(sts := Some(DesiredStatefulSet(w.inst.spec, w.db.sts))));
            && Settling(k, r.w) && r.w.inst == w.inst && (!r.ok ==> r.w.fate.Stopped?)
  {
  }

  lemma {:induction false} ResourcesGo(k: Context, w: World)
    requires Settling(k, w)
    ensures var r := ReconcileResources(w);
            && Settling(k, r.w) && r.w.inst == w.inst && (!r.ok ==> r.w.fate.Stopped?)
  {
    CallKeeps(w);
    var Reply(w1, ok) := Call(w);
    if ok {
      CommitGoes(k, w1);
      var Reply(w2, done) := Commit(w1, w1.db.(sts := Some(DesiredStatefulSet(w1.inst.spec, w1.db.sts))));
      CallKeeps(w2);
    }
  }

  lemma {:induction false} WriteIfChangedGoes(k: Context, w: World, saved: Status, i: Inputs)
    requires Going(k, w)
    ensures Safe(k, WriteIfChanged(w, saved, i).w.db)
  {
    WriteGoes(k, w);
  }

  lemma {:induction false} RestGoes(k: Context, w: World, saved: Status, i: Inputs)
    requires Settling(k, w) && i.parse == k.parse && Sane(k.parse)
    ensures Safe(k, ReconcileRest(w, saved, i).w.db)
  {
    ResourcesGo(k, w);
    var Reply(w1, ok) := ReconcileResources(w);
    if ok {
      if w1.inst.spec.suspended {
        assert Going(k, SetPhase(w1, Suspended));
        WriteIfChangedGoes(k, SetPhase(w1, Suspended), saved, i);
      } else {
        var w2 := SetPhase(w1, ObservedPhase(w1, i));
        assert Checking(k, w2);
        CheckGoes(k, w2, i);
        WriteIfChangedGoes(k, ReconcileAutoUpdate(w2, i).w, saved, i);
      }
    }
  }

  /** After a stop nothing more is written. */
  lemma {:induction false} RestFrozen(w: World, saved: Status, i: Inputs)
    requires w.fate.Stopped?
    ensures ReconcileRest(w, saved, i).w.db == w.db
  {
  }

  lemma {:induction false} ProvisionedGoes(k: Context, w: World, i: Inputs)
    requires Reading(k, w) && i.parse == k.parse && Sane(k.parse)
    requires !w.inst.status.phase.Unset? && !w.inst.status.phase.Pending?
    ensures Safe(k, ReconcileProvisioned(w, i).w.db)
  {
    if w.inst.status.au.pending != "" && !w.inst.spec.suspended {
      DriveGoes(k, w, i);
      var r := DriveUpdateStateMachine(w, i);
      if r.requeue.Never? {
        RestFrozen(r.w, w.inst.status, i);
      } else {
        WriteGoes(k, r.w);
      }
    } else {
      RestGoes(k, w, w.inst.status, i);
    }
  }

  lemma {:induction false} ResolveGoes(k: Context, w: World, i: Inputs)
    requires Reading(k, w) && w.inst.status.au.pending == ""
    ensures var r := ResolveInitialTag(w, i);
            && Safe(k, r.w.db) && (!r.err && !r.requeue.Now? ==> r.w == w)
  {
    var answer := LatestVersion(w, i);
    if IsAutoUpdateEnabled(w.inst.spec) && w.inst.spec.tag == "latest" && i.resolver && answer.Some? {
      var Reply(w1, ok) := PatchTag(w, answer.value);
      assert Going(k, w1);
      if ok {
        var w2 := SetAutoUpdate(w1, w1.inst.status.au.(current := answer.value));
        assert Going(k, w2);
        WriteGoes(k, w2);
        EmitGoes(k, WriteStatus(w2).w, TagResolved(answer.value));
      }
    }
  }

  lemma {:induction false} FirstGoes(k: Context, w: World, i: Inputs)
    requires Reading(k, w) && w.inst.status.phase.Pending? && i.parse == k.parse && Sane(k.parse)
    ensures var Reply(w1, ok) := WriteStatus(SetPhase(w, Phase.Provisioning));
            && Safe(k, w1.db) && Safe(k, ResolveInitialTag(w1, i).w.db)
            && var r := ResolveInitialTag(w1, i);
            && (ok && !r.err && !r.requeue.Now? ==> Safe(k, ReconcileProvisioned(r.w, i).w.db))
  {
    var w0 := SetPhase(w, Phase.Provisioning);
    assert Going(k, w0);
    WriteGoes(k, w0);
    var Reply(w1, ok) := WriteStatus(w0);
    if ok {
      ResolveGoes(k, w1, i);
      ProvisionedGoes(k, w1, i);
    } else {
      assert ResolveInitialTag(w1, i).w.db == w1.db;
    }
  }

  lemma {:induction false} FrameSafe(k: Context, c: Cluster, w: World)
    requires Safe(k, c) && Framed(c, w)
    ensures Safe(k, w.db)
  {
    QuietKeeps(k.parse, c.history, w.db.history);
    assert PreUpdateBackup in w.db.jobs <==> PreUpdateBackup in w.db.jobs - {DeletionBackup};
    assert PreUpdateBackup in c.jobs <==> PreUpdateBackup in c.jobs - {DeletionBackup};
    if PreUpdateBackup in c.jobs {
      assert (c.jobs - {DeletionBackup})[PreUpdateBackup] == (w.db.jobs - {DeletionBackup})[PreUpdateBackup];
    }
  }

  // ----- runs -----

  lemma {:induction false} FinalizerSafe(k: Context, c: Cluster)
    requires Safe(k, c)
    ensures Safe(k, WithSpec(c, c.inst.spec.(finalizer := true)))
  {
  }

  lemma {:induction false} FreshSafe(k: Context, w: World)
    requires Reading(k, w) && w.inst.status.phase.Unset?
    ensures Safe(k, WriteStatus(SetPhase(w, Pending)).w.db)
  {
    WriteGoes(k, SetPhase(w, Pending));
  }

  lemma {:induction false} ReconcileSafe(k: Context, c: Cluster, i: Inputs, fate: Fate)
    requires Safe(k, c) && k.stranded == StrandedNow(k.stranded, c) && c.inst.status.au.backupPath == ""
    requires Unbroken(fate) && i.parse == k.parse && Sane(k.parse)
    ensures Safe(k, Reconcile(c, i, fate).w.db)
  {
    var w0 := World(c, c.inst, fate);
    CallKeeps(w0);
    var Reply(w, ok) := Call(w0);
    assert Reading(k, w);
    if Gone(c.inst.spec) || !ok {
    } else if c.inst.spec.deleting {
      DeleteFramed(c, w, i);
      FrameSafe(k, c, ReconcileDeleteWithBackup(w, i).w);
    } else if !c.inst.spec.finalizer {
      FinalizerSafe(k, c);
    } else if c.inst.status.phase.Unset? {
      FreshSafe(k, w);
    } else if c.inst.status.phase.Pending? {
      FirstGoes(k, w, i);
    } else {
      ProvisionedGoes(k, w, i);
    }
  }

  /** A Secret that is changed under a running backup stays readable. */
  predicate SecretKept(c: Cluster, e: Event) {
    e.ChangeSecret? && JobUnfinished(c, PreUpdateBackup) ==> Readable(e.secret)
  }

  lemma {:induction false} EventTraced(k: Context, c: Cluster, e: Event)
    requires Safe(k, c) && !e.Reconciled? && !e.EditTag? && Enabled(c, e)
    requires e.EditOptions? ==> c.inst.status.au.pending == ""
    ensures var d := Apply(c, e);
            && Traced(k.parse, StrandedNow(k.stranded, d), d.inst, d.history)
            && d.inst.status == c.inst.status && (NeedsBackup(d.inst.spec) == NeedsBackup(c.inst.spec) || e.EditOptions?)
  {
  }

  lemma {:induction false} EventExcludes(c: Cluster, e: Event)
    requires Excluded(c) && !e.Reconciled? && Enabled(c, e) && SecretKept(c, e)
    requires e.EditOptions? ==> c.inst.status.au.pending == ""
    ensures Excluded(Apply(c, e))
  {
  }

  lemma {:induction false} EventSafe(k: Context, c: Cluster, e: Event)
    requires Safe(k, c) && !e.Reconciled? && !e.EditTag? && Enabled(c, e)
    requires e.EditOptions? ==> c.inst.status.au.pending == ""
    requires k.guarded ==> SecretKept(c, e)
    ensures Safe(k, Apply(c, e))
  {
    EventTraced(k, c, e);
    if k.guarded {
      EventExcludes(c, e);
    }
  }

  /** No call returns an error, only the controller edits the tag, options are fixed while an update is
      pending; reconciles may stop anywhere. */
  ghost predicate NoErrors(parse: Semver.Parser, c: Cluster, events: seq<Event>) {
    && Initial(c) && Sane(parse) && Uniform(events, parse) && OptionsFixed(c, events)
    && forall k :: 0 <= k < |events| ==> (events[k].Reconciled? ==> Unbroken(events[k].fate)) && !events[k].EditTag?
  }

  ghost predicate SecretsKept(c: Cluster, events: seq<Event>) {
    forall k :: 0 <= k < |events| ==> SecretKept(Run(c, events[..k]), events[k])
  }

  /** Whether, since the pending update was announced, a reconcile has stopped with the tag patched and
      the health check not yet written. */
  predicate Stranded(c: Cluster, events: seq<Event>)
    decreases |events|
  {
    events != [] && StrandedNow(Stranded(c, events[..|events| - 1]), Run(c, events))
  }

  lemma {:induction false} Before(parse: Semver.Parser, c: Cluster, events: seq<Event>, guarded: bool)
    requires NoErrors(parse, c, events) && events != [] && (guarded ==> SecretsKept(c, events))
    ensures var init, e := events[..|events| - 1], events[|events| - 1];
            && NoErrors(parse, c, init) && (guarded ==> SecretsKept(c, init))
            && (e.EditOptions? ==> Run(c, init).inst.status.au.pending == "")
            && (guarded ==> SecretKept(Run(c, init), e))
  {
    var init := events[..|events| - 1];
    OptionsFixedBefore(c, events);
    if guarded {
      forall k | 0 <= k < |init| ensures SecretKept(Run(c, init[..k]), init[k]) {
        assert init[..k] == events[..k];
      }
    }
  }

  lemma {:induction false} RunSafe(parse: Semver.Parser, c: Cluster, events: seq<Event>, guarded: bool)
    requires NoErrors(parse, c, events) && (guarded ==> SecretsKept(c, events))
    ensures Safe(Context(parse, guarded, Stranded(c, events)), Run(c, events))
  {
    if events != [] {
      var init, e := events[..|events| - 1], events[|events| - 1];
      Before(parse, c, events, guarded);
      RunSafe(parse, c, init, guarded);
      BackupPathIsNeverRecorded(c, init);
      StepSafe(Context(parse, guarded, Stranded(c, init)), Run(c, init), e);
    }
  }

  lemma {:induction false} StepSafe(k: Context, c: Cluster, e: Event)
    requires Safe(k, c) && k.stranded == StrandedNow(k.stranded, c) && c.inst.status.au.backupPath == "" && Sane(k.parse)
    requires e.Reconciled? ==> Unbroken(e.fate) && e.input.parse == k.parse
    requires !e.EditTag? && (e.EditOptions? ==> c.inst.status.au.pending == "") && (k.guarded ==> SecretKept(c, e))
    ensures Safe(k.(stranded := StrandedNow(k.stranded, Step(c, e))), Step(c, e))
  {
    if e.Reconciled? {
      ReconcileSafe(k, c, e.input, e.fate);
    } else if Enabled(c, e) {
      EventSafe(k, c, e);
    }
  }

  // ----- what follows -----

  /** Mutual exclusion: as long as no call returns an error and the Secret is not made unreadable under a
      running backup, an unfinished backup Job means zero replicas and no pods, through stops at any
      call, suspensions and resumptions alike. */
  lemma {:induction false} NothingRunsDuringBackup(parse: Semver.Parser, c: Cluster, events: seq<Event>)
    requires NoErrors(parse, c, events) && SecretsKept(c, events)
    ensures var end := Run(c, events);
            JobUnfinished(end, PreUpdateBackup) ==>
              end.sts.Some? && end.sts.value.replicas == Some(0) && end.pods == 0
  {
    RunSafe(parse, c, events, true);
  }

  /** Wherever reconciles stop, during health check and rollback the previous version is the tag that was
      running when the update was announced, or the pending version itself: the latter exactly if a
      reconcile stopped between the tag patch and the status write of the health check. */
  lemma {:induction false} PreviousVersionExactly(parse: Semver.Parser, c: Cluster, events: seq<Event>)
    requires NoErrors(parse, c, events)
    ensures var end := Run(c, events); var au := end.inst.status.au;
            au.phase.HealthCheck? || au.phase.RollingBack? ==>
              && Announced(end.history, au.pending)
              && var running := LastAvailable(end.history).value.1;
              && Newer(parse, au.pending, running) && running != au.pending
              && au.previous == (if Stranded(c, events) then au.pending else running)
  {
    RunSafe(parse, c, events, false);
    var end := Run(c, events);
    if end.inst.status.au.phase.HealthCheck? || end.inst.status.au.phase.RollingBack? {
      NewerDiffers(parse, LastAvailable(end.history).value.0, LastAvailable(end.history).value.1);
    }
  }
}
