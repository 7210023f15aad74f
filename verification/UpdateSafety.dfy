/** What every error-free run keeps: the tag, PendingVersion and PreviousVersion tell one story,
    and the workload is down for as long as the pre-update backup is at work. */
module UpdateSafety {
  import opened Wrappers
  import opened Rclone
  import opened Cluster
  import opened AutoUpdate
  import opened Deletion
  import opened Lifecycle
  import opened DeletionFrame
  import opened Resilience
  import Semver

  // ----- reading the history -----

  /** The most recent announcement of a new version: (new version, tag it was compared with). */
  function LastAvailable(h: History): Option<(string, string)> {
    match h
    case Start => None
    case After(past, notice) =>
      if notice.Available? then Some((notice.version, notice.running)) else LastAvailable(past)
  }

  /** Every announcement about an update concerns the version announced last, a rollback restores the
      tag that was running at that announcement, and the only abort is a failed backup. */
  predicate Lawful(parse: Semver.Parser, h: History) {
    match h
    case Start => true
    case After(past, notice) =>
      Lawful(parse, past) &&
      match notice
      case Available(version, running) => Newer(parse, version, running)
      case Applied(version, _) => Announced(past, version)
      case Confirmed(version) => Announced(past, version)
      case HealthCheckFailed(version) => Announced(past, version)
      case RolledBack(version, restored) => Announced(past, version) && LastAvailable(past).value.1 == restored
      case Aborted(reason) => reason.BackupFailed?
      case _ => true
  }

  /** The last announcement was about `version`. */
  predicate Announced(h: History, version: string) {
    LastAvailable(h).Some? && LastAvailable(h).value.0 == version
  }

  predicate Newer(parse: Semver.Parser, version: string, running: string) {
    && version != "" && running != ""
    && parse(version).Some? && parse(running).Some?
    && Semver.Below(parse(running).value, parse(version).value)
  }

  // ----- the invariant -----

  predicate Readable(secret: Option<Secret>) {
    secret.Some? && ParseSecret(secret.value).Some?
  }

  /** PendingVersion, UpdatePhase, PreviousVersion and the tag agree with the last announcement. */
  predicate Coherent(parse: Semver.Parser, inst: Instance, h: History) {
    var au := inst.status.au;
    && !au.phase.ApplyingUpdate?
    && (au.pending == "" ==> au.phase.Idle?)
    && (au.phase.BackingUp? ==> NeedsBackup(inst.spec))
    && (au.pending != "" ==>
          && !inst.status.phase.Unset? && !inst.status.phase.Pending?
          && LastAvailable(h).Some?
          && var (version, running) := LastAvailable(h).value;
          && au.pending == version && Newer(parse, version, running)
          && (au.phase.Idle? || au.phase.BackingUp? ==> inst.spec.tag == running)
          && (au.phase.HealthCheck? || au.phase.RollingBack? ==> inst.spec.tag == version && au.previous == running))
  }

  /** While an update is pending, the pod template is the one from before the update, unless it was
      `renewed` under the new tag. */
  predicate Template(renewed: bool, c: Cluster) {
    var au := c.inst.status.au;
    au.pending != "" ==>
      && c.sts.Some? && LastAvailable(c.history).Some?
      && c.sts.value.template == (if renewed then LastAvailable(c.history).value.0 else LastAvailable(c.history).value.1)
      && (renewed ==> au.phase.HealthCheck? || au.phase.RollingBack?)
  }

  predicate Inv(parse: Semver.Parser, renewed: bool, c: Cluster) {
    Lawful(parse, c.history) && Coherent(parse, c.inst, c.history) && Template(renewed, c)
  }

  // ----- a reconcile whose calls all succeed -----

  predicate Calm(w: World) {
    w.fate.Smooth? && w.inst.spec == w.db.inst.spec
  }

  /** The cluster once the controller's copy is written back. */
  function View(w: World): Cluster {
    w.db.(inst := w.inst)
  }

  predicate Good(parse: Semver.Parser, renewed: bool, w: World) {
    Calm(w) && Inv(parse, renewed, View(w))
  }

  predicate Sane(parse: Semver.Parser) {
    parse("").None?
  }

  predicate PodsWanted(c: Cluster) {
    c.sts.Some? && Replicas(c.sts.value) > 0
  }

  lemma {:induction false} AbortKeeps(parse: Semver.Parser, renewed: bool, w: World)
    requires Good(parse, renewed, w) && w.inst.status.au.pending != ""
    ensures Good(parse, renewed, AbortUpdate(w, BackupFailed).w)
    ensures !AbortUpdate(w, BackupFailed).requeue.Never?
    ensures PodsWanted(AbortUpdate(w, BackupFailed).w.db)
  {
  }

  lemma {:induction false} ConfirmKeeps(parse: Semver.Parser, renewed: bool, w: World)
    requires Good(parse, renewed, w) && w.inst.status.au.pending != "" && w.inst.status.au.phase.HealthCheck?
    ensures Good(parse, renewed, ConfirmUpdate(w).w) && !ConfirmUpdate(w).requeue.Never?
  {
  }

  lemma {:induction false} HealthCheckKeeps(parse: Semver.Parser, renewed: bool, w: World)
    requires Good(parse, renewed, w) && w.inst.status.au.pending != "" && w.inst.status.au.phase.HealthCheck?
    ensures Good(parse, renewed, DriveHealthCheck(w).w) && !DriveHealthCheck(w).requeue.Never?
  {
    ConfirmKeeps(parse, renewed, w);
  }

  lemma {:induction false} RevertKeeps(parse: Semver.Parser, renewed: bool, w: World)
    requires Good(parse, renewed, w) && w.inst.status.au.pending != "" && w.inst.status.au.phase.RollingBack?
    ensures Good(parse, renewed, RevertTag(w, w.inst.status.au.previous).w)
    ensures !RevertTag(w, w.inst.status.au.previous).requeue.Never?
  {
  }

  lemma {:induction false} RollbackKeeps(parse: Semver.Parser, renewed: bool, w: World)
    requires Good(parse, renewed, w) && w.inst.status.au.pending != "" && w.inst.status.au.phase.RollingBack?
    requires w.inst.status.au.backupPath == ""
    ensures Good(parse, renewed, DriveRollback(w).w) && !DriveRollback(w).requeue.Never?
  {
    RevertKeeps(parse, renewed, w);
  }

  /** Between the tag patch and the next status write. */
  predicate Patched(parse: Semver.Parser, renewed: bool, w: World) {
    var au := w.inst.status.au;
    && Calm(w) && Lawful(parse, w.db.history)
    && Announced(w.db.history, au.pending) && LastAvailable(w.db.history).value.1 == au.previous && Newer(parse, au.pending, au.previous)
    && w.inst.spec.tag == au.pending
    && w.db.sts.Some? && w.db.sts.value.template == au.previous && !renewed
  }

  lemma {:induction false} StartKeeps(parse: Semver.Parser, renewed: bool, w: World)
    requires Patched(parse, renewed, w)
    ensures Good(parse, renewed, StartHealthCheck(w, w.inst.status.au.pending).w)
    ensures Good(parse, renewed, FinishWithoutHealthCheck(w, w.inst.status.au.pending).w)
  {
  }

  lemma {:induction false} ScaleKeeps(parse: Semver.Parser, renewed: bool, w: World)
    requires Patched(parse, renewed, w)
    ensures ScaleBackUp(w).ok && Patched(parse, renewed, ScaleBackUp(w).w) && ScaleBackUp(w).w.inst == w.inst
    ensures NeedsBackup(w.inst.spec) ==> PodsWanted(ScaleBackUp(w).w.db)
  {
  }

  lemma {:induction false} AfterPatchKeeps(parse: Semver.Parser, renewed: bool, w: World)
    requires Patched(parse, renewed, w)
    ensures var r := AfterTagPatch(w, w.inst.status.au.pending);
            && Good(parse, renewed, r.w) && !r.requeue.Never?
            && (NeedsBackup(w.inst.spec) ==> PodsWanted(r.w.db))
  {
    ScaleKeeps(parse, renewed, w);
    StartKeeps(parse, renewed, ScaleBackUp(w).w);
  }

  lemma {:induction false} ApplyKeeps(parse: Semver.Parser, renewed: bool, w: World)
    requires Good(parse, renewed, w) && w.inst.status.au.pending != ""
    requires w.inst.status.au.phase.Idle? || w.inst.status.au.phase.BackingUp?
    ensures var r := ApplyUpdate(w);
            && Good(parse, renewed, r.w) && !r.requeue.Never?
            && (NeedsBackup(w.inst.spec) ==> PodsWanted(r.w.db))
  {
    var w0 := SetAutoUpdate(w, w.inst.status.au.(previous := w.inst.spec.tag, phase := ApplyingUpdate));
    AfterPatchKeeps(parse, renewed, PatchTag(WriteStatus(w0).w, w.inst.status.au.pending).w);
  }

  // ----- the backup phase -----

  predicate InBackup(parse: Semver.Parser, renewed: bool, w: World) {
    && Good(parse, renewed, w) && w.inst.status.au.pending != "" && NeedsBackup(w.inst.spec)
    && (w.inst.status.au.phase.Idle? || w.inst.status.au.phase.BackingUp?)
  }

  /** The backup leaves the instance as it is and the invariant in place; unless it ends, entering
      BackingUp keeps it too. */
  predicate BackupPost(parse: Semver.Parser, renewed: bool, w: World, b: BackupRet) {
    && b.w.inst == w.inst && b.w.db.history == w.db.history && b.w.db.tags == w.db.tags
    && Good(parse, renewed, b.w)
    && (!b.err && !b.done ==>
          !b.requeue.Never? && Good(parse, renewed, SetAutoUpdate(b.w, b.w.inst.status.au.(phase := BackingUp))))
  }

  predicate ScaledDown(c: Cluster) {
    c.sts.Some? && c.sts.value.replicas == Some(0) && c.pods == 0
  }

  lemma {:induction false} EnterBackup(parse: Semver.Parser, renewed: bool, w: World)
    requires InBackup(parse, renewed, w)
    ensures Good(parse, renewed, SetAutoUpdate(w, w.inst.status.au.(phase := BackingUp)))
  {
  }

  lemma StartedWorld(w: World, creds: Credentials, path: string)
    requires w.fate.Smooth?
    ensures StartPreUpdateJob(w, creds, path)
         == BackupRet(w.(db := w.db.(jobs := w.db.jobs[PreUpdateBackup := BackupJob(creds, path)])), In(10), false, false)
  {
  }

  lemma {:induction false} StartJobKeeps(parse: Semver.Parser, renewed: bool, w: World, creds: Credentials, path: string)
    requires InBackup(parse, renewed, w)
    ensures BackupPost(parse, renewed, w, StartPreUpdateJob(w, creds, path))
  {
    EnterBackup(parse, renewed, w);
    StartedWorld(w, creds, path);
  }

  lemma {:induction false} JobKeeps(parse: Semver.Parser, renewed: bool, w: World, i: Inputs, creds: Credentials)
    requires InBackup(parse, renewed, w)
    ensures BackupPost(parse, renewed, w, PreUpdateJob(w, i, creds))
  {
    if PreUpdateBackup !in w.db.jobs {
      StartJobKeeps(parse, renewed, w, creds, PreUpdatePath(w.inst.spec, i.stamp));
    } else {
      EnterBackup(parse, renewed, w);
    }
  }

  lemma {:induction false} CredentialsKeep(parse: Semver.Parser, renewed: bool, w: World, i: Inputs)
    requires InBackup(parse, renewed, w)
    ensures BackupPost(parse, renewed, w, PreUpdateCredentials(w, i))
  {
    if Readable(w.db.secret) {
      JobKeeps(parse, renewed, w, i, ParseSecret(w.db.secret.value).value);
    }
  }

  lemma {:induction false} AwaitKeeps(parse: Semver.Parser, renewed: bool, w: World, i: Inputs)
    requires InBackup(parse, renewed, w) && w.db.sts.Some? && w.db.sts.value.replicas == Some(0)
    ensures BackupPost(parse, renewed, w, AwaitTermination(w, i))
  {
    if w.db.pods == 0 {
      CredentialsKeep(parse, renewed, w, i);
    }
  }

  lemma {:induction false} BackupKeeps(parse: Semver.Parser, renewed: bool, w: World, i: Inputs)
    requires InBackup(parse, renewed, w)
    ensures BackupPost(parse, renewed, w, DrivePreUpdateBackup(w, i))
  {
    if w.db.sts.Some? && w.db.sts.value.replicas == Some(0) {
      AwaitKeeps(parse, renewed, w, i);
    }
  }

  lemma {:induction false} BackUpFirstKeeps(parse: Semver.Parser, renewed: bool, w: World, i: Inputs)
    requires InBackup(parse, renewed, w)
    ensures var r := BackUpFirst(w, i);
            && Good(parse, renewed, r.w) && !r.requeue.Never?
            && (!r.w.inst.status.au.phase.BackingUp? ==> PodsWanted(r.w.db))
  {
    BackupKeeps(parse, renewed, w, i);
    var b := DrivePreUpdateBackup(w, i);
    if b.err {
      AbortKeeps(parse, renewed, b.w);
    } else if b.done {
      RecordKeeps(parse, renewed, b.w);
      ApplyKeeps(parse, renewed, RecordBackupPath(b.w));
    }
  }

  lemma {:induction false} RecordOnlySetsPath(w: World)
    requires w.fate.Smooth?
    ensures RecordBackupPath(w).inst.status.au
         == w.inst.status.au.(backupPath := RecordBackupPath(w).inst.status.au.backupPath)
    ensures RecordBackupPath(w) == SetAutoUpdate(w, RecordBackupPath(w).inst.status.au)
  {
  }

  lemma {:induction false} PathIsFree(parse: Semver.Parser, renewed: bool, w: World, path: string)
    requires Good(parse, renewed, w)
    ensures Good(parse, renewed, SetAutoUpdate(w, w.inst.status.au.(backupPath := path)))
  {
  }

  lemma {:induction false} RecordKeeps(parse: Semver.Parser, renewed: bool, w: World)
    requires Good(parse, renewed, w)
    ensures Good(parse, renewed, RecordBackupPath(w)) && RecordBackupPath(w).db == w.db
    ensures RecordBackupPath(w).inst.status.au.pending == w.inst.status.au.pending
    ensures RecordBackupPath(w).inst.status.au.phase == w.inst.status.au.phase
    ensures RecordBackupPath(w).inst.spec == w.inst.spec
  {
    RecordOnlySetsPath(w);
    PathIsFree(parse, renewed, w, RecordBackupPath(w).inst.status.au.backupPath);
  }

  lemma {:induction false} DriveKeeps(parse: Semver.Parser, renewed: bool, w: World, i: Inputs)
    requires Good(parse, renewed, w) && w.inst.status.au.pending != "" && w.inst.status.au.backupPath == ""
    ensures var r := DriveUpdateStateMachine(w, i);
            && Good(parse, renewed, r.w) && !r.requeue.Never?
            && (w.inst.status.au.phase.BackingUp? && !r.w.inst.status.au.phase.BackingUp? ==> PodsWanted(r.w.db))
  {
    var au := w.inst.status.au;
    if au.phase.HealthCheck? {
      HealthCheckKeeps(parse, renewed, w);
    } else if au.phase.RollingBack? {
      RollbackKeeps(parse, renewed, w);
    } else if !w.inst.status.phase.Updating? {
    } else if NeedsBackup(w.inst.spec) {
      BackUpFirstKeeps(parse, renewed, w, i);
    } else {
      ApplyKeeps(parse, renewed, w);
    }
  }

  // ----- version check and the rest of a reconcile -----

  /** The state in which the version check runs: the template has just been written. */
  predicate Checking(parse: Semver.Parser, renewed: bool, w: World) {
    && Good(parse, renewed, w) && w.inst.status.au.pending == ""
    && !w.inst.status.phase.Unset? && !w.inst.status.phase.Pending?
    && w.db.sts.Some? && w.db.sts.value.template == ImageTag(w.inst.spec.tag)
  }

  lemma {:induction false} ConsiderKeeps(parse: Semver.Parser, renewed: bool, w: World, i: Inputs, version: string)
    requires Checking(parse, renewed, w) && Newer(parse, version, w.inst.spec.tag) && i.parse == parse
    ensures Good(parse, false, ConsiderVersion(w, i, version).w)
  {
  }

  lemma {:induction false} CompareKeeps(parse: Semver.Parser, renewed: bool, w: World, i: Inputs, version: string)
    requires Checking(parse, renewed, w) && i.parse == parse && Sane(parse)
    ensures Good(parse, false, CompareVersions(w, i, version).w)
  {
    var tag := w.inst.spec.tag;
    if parse(tag).Some? && parse(version).Some? && Semver.Below(parse(tag).value, parse(version).value) {
      ConsiderKeeps(parse, renewed, SetAutoUpdate(w, w.inst.status.au.(current := tag)), i, version);
    }
  }

  lemma {:induction false} CheckKeeps(parse: Semver.Parser, renewed: bool, w: World, i: Inputs)
    requires Checking(parse, renewed, w) && i.parse == parse && Sane(parse)
    ensures Good(parse, false, CheckForUpdate(w, i).w)
  {
    var answer := LatestVersion(w, i);
    if answer.Some? {
      var au := w.inst.status.au.(lastCheck := Some(w.db.now), latest := answer.value);
      CompareKeeps(parse, renewed, SetAutoUpdate(w, au), i, answer.value);
    }
  }

  lemma {:induction false} CheckWritesNoStatus(w: World, i: Inputs)
    requires w.inst.status.au.pending == ""
    ensures ReconcileAutoUpdate(w, i).w.db.inst.status == w.db.inst.status
  {
  }

  /** The state in which resources are reconciled: nothing pending, or suspended. */
  predicate Settled(parse: Semver.Parser, renewed: bool, w: World, saved: Status) {
    && Good(parse, renewed, w) && w.db.inst.status == saved == w.inst.status
    && (w.inst.spec.suspended || w.inst.status.au.pending == "")
    && !w.inst.status.phase.Unset? && !w.inst.status.phase.Pending?
  }

  /** Whether writing the template now shows the pending version. */
  predicate Rewritten(inst: Instance) {
    inst.status.au.pending != "" && inst.spec.tag == inst.status.au.pending
  }

  lemma {:induction false} ResourcesKeep(parse: Semver.Parser, renewed: bool, w: World, saved: Status)
    requires Settled(parse, renewed, w, saved)
    ensures var r := ReconcileResources(w);
            && r.ok && Settled(parse, Rewritten(w.inst), r.w, saved) && r.w.db.sts.Some? && r.w.inst == w.inst
            && r.w.db.sts.value.template == ImageTag(w.inst.spec.tag)
  {
    if w.inst.status.au.pending != "" {
      NewerDiffers(parse, LastAvailable(w.db.history).value.0, LastAvailable(w.db.history).value.1);
    }
  }

  lemma NewerDiffers(parse: Semver.Parser, version: string, running: string)
    requires Newer(parse, version, running)
    ensures version != running
  {
    var v := parse(running).value;
    Semver.PrecedenceIsTotalOrder(v, v, v);
  }

  lemma {:induction false} RestKeeps(parse: Semver.Parser, renewed: bool, w: World, saved: Status, i: Inputs)
    requires Settled(parse, renewed, w, saved) && i.parse == parse && Sane(parse)
    ensures Inv(parse, Rewritten(w.inst), ReconcileRest(w, saved, i).w.db)
  {
    ResourcesKeep(parse, renewed, w, saved);
    var w1 := ReconcileResources(w).w;
    if w.inst.spec.suspended {
      assert Good(parse, Rewritten(w.inst), SetPhase(w1, Suspended));
    } else {
      var w2 := SetPhase(w1, ObservedPhase(w1, i));
      assert Checking(parse, false, w2);
      CheckKeeps(parse, false, w2, i);
      CheckWritesNoStatus(w2, i);
      var r := ReconcileAutoUpdate(w2, i);
      WriteBack(parse, false, r.w, saved, i);
    }
  }

  lemma {:induction false} WriteBack(parse: Semver.Parser, renewed: bool, w: World, saved: Status, i: Inputs)
    requires Good(parse, renewed, w) && w.db.inst.status == saved
    ensures Inv(parse, renewed, WriteIfChanged(w, saved, i).w.db)
  {
  }

  lemma {:induction false} ProvisionedKeeps(parse: Semver.Parser, renewed: bool, w: World, i: Inputs)
    requires Good(parse, renewed, w) && w.db.inst.status == w.inst.status && w.inst.status.au.backupPath == ""
    requires !w.inst.status.phase.Unset? && !w.inst.status.phase.Pending?
    requires i.parse == parse && Sane(parse)
    ensures var end := ReconcileProvisioned(w, i).w.db;
            && Inv(parse, if w.inst.status.au.pending != "" && !w.inst.spec.suspended then renewed else Rewritten(w.inst), end)
            && BackupExit(w.db, end)
  {
    if w.inst.status.au.pending != "" && !w.inst.spec.suspended {
      DriveKeeps(parse, renewed, w, i);
    } else {
      RestKeeps(parse, renewed, w, w.inst.status, i);
      if w.inst.spec.suspended {
        RestStaysInBackup(w, w.inst.status, i);
      }
    }
  }

  /** Leaving the backup phase leaves the workload scaled up. */
  predicate BackupExit(before: Cluster, after: Cluster) {
    before.inst.status.au.phase.BackingUp? && !after.inst.status.au.phase.BackingUp? ==> PodsWanted(after)
  }

  lemma {:induction false} RestStaysInBackup(w: World, saved: Status, i: Inputs)
    requires Calm(w) && w.inst.spec.suspended && w.db.inst.status == saved == w.inst.status
    ensures ReconcileRest(w, saved, i).w.db.inst.status.au == w.inst.status.au
  {
  }

  lemma {:induction false} ResolveKeeps(parse: Semver.Parser, renewed: bool, w: World, i: Inputs)
    requires Good(parse, renewed, w) && w.db.inst.status == w.inst.status && w.inst.status.au.pending == ""
    ensures var r := ResolveInitialTag(w, i);
            && Good(parse, renewed, r.w) && r.w.db.inst.status == r.w.inst.status && r.w.inst.status.au.pending == ""
            && r.w.inst.status.phase == w.inst.status.phase && r.w.inst.status.au.backupPath == w.inst.status.au.backupPath
  {
  }

  // ----- whole reconciles and runs -----

  lemma {:induction false} QuietKeeps(parse: Semver.Parser, h0: History, h: History)
    requires Quietly(h0, h)
    ensures LastAvailable(h) == LastAvailable(h0)
    ensures Lawful(parse, h0) ==> Lawful(parse, h)
  {
    if h != h0 {
      QuietKeeps(parse, h0, h.past);
    }
  }

  lemma {:induction false} FrameKeeps(parse: Semver.Parser, renewed: bool, c: Cluster, w: World)
    requires Inv(parse, renewed, c) && Framed(c, w)
    ensures Inv(parse, renewed, w.db)
  {
    QuietKeeps(parse, c.history, w.db.history);
  }

  // ----- the template along a run -----

  /** A reconcile of the suspended instance that writes the template under the new tag. */
  predicate Renews(c: Cluster, e: Event) {
    e.Reconciled? && !c.inst.spec.deleting && c.inst.spec.finalizer && c.inst.spec.suspended && Rewritten(c.inst)
  }

  /** Whether the template has been renewed since the pending update was announced. */
  predicate Renewed(c: Cluster, events: seq<Event>)
    decreases |events|
  {
    events != [] &&
    var init := events[..|events| - 1];
    && Run(c, events).inst.status.au.pending != ""
    && (Renewed(c, init) || Renews(Run(c, init), events[|events| - 1]))
  }

  predicate RenewedAfter(renewed: bool, c: Cluster, e: Event) {
    Step(c, e).inst.status.au.pending != "" && (renewed || Renews(c, e))
  }

  lemma {:induction false} ReconcileKeeps(parse: Semver.Parser, renewed: bool, c: Cluster, i: Inputs)
    requires Inv(parse, renewed, c) && c.inst.status.au.backupPath == "" && i.parse == parse && Sane(parse)
    requires renewed ==> c.inst.status.au.pending != ""
    ensures var end := Reconcile(c, i, Smooth).w.db;
            && Inv(parse, renewed || Renews(c, Reconciled(i, Smooth)), end)
            && BackupExit(c, end)
  {
    var w := World(c, c.inst, Smooth);
    if Gone(c.inst.spec) {
    } else if c.inst.spec.deleting {
      DeleteFramed(c, w, i);
      FrameKeeps(parse, renewed, c, ReconcileDeleteWithBackup(w, i).w);
    } else if !c.inst.spec.finalizer || c.inst.status.phase.Unset? {
    } else if c.inst.status.phase.Pending? {
      var w1 := WriteStatus(SetPhase(w, Provisioning)).w;
      ResolveKeeps(parse, renewed, w1, i);
      ProvisionedKeeps(parse, renewed, ResolveInitialTag(w1, i).w, i);
    } else {
      ProvisionedKeeps(parse, renewed, w, i);
    }
  }

  /** What happens around the controller keeps the invariant too. */
  lemma {:induction false} WorldKeeps(parse: Semver.Parser, renewed: bool, c: Cluster, e: Event)
    requires Inv(parse, renewed, c) && ErrorFreeEvent(e) && !e.Reconciled? && Enabled(c, e)
    requires e.EditOptions? ==> c.inst.status.au.pending == ""
    ensures Inv(parse, renewed, Apply(c, e))
    ensures Apply(c, e).inst.status == c.inst.status
  {
  }

  lemma AnyFlagOnceSettled(parse: Semver.Parser, renewed: bool, c: Cluster)
    requires Inv(parse, renewed, c)
    ensures Inv(parse, c.inst.status.au.pending != "" && renewed, c)
  {
  }

  lemma {:induction false} StepKeeps(parse: Semver.Parser, renewed: bool, c: Cluster, e: Event)
    requires Inv(parse, renewed, c) && c.inst.status.au.backupPath == "" && Sane(parse)
    requires ErrorFreeEvent(e) && (e.Reconciled? ==> e.input.parse == parse)
    requires e.EditOptions? ==> c.inst.status.au.pending == ""
    requires renewed ==> c.inst.status.au.pending != ""
    ensures Inv(parse, RenewedAfter(renewed, c, e), Step(c, e))
    ensures BackupExit(c, Step(c, e))
  {
    if e.Reconciled? {
      ReconcileKeeps(parse, renewed, c, e.input);
      assert e == Reconciled(e.input, Smooth);
      AnyFlagOnceSettled(parse, renewed || Renews(c, e), Step(c, e));
    } else if Enabled(c, e) {
      WorldKeeps(parse, renewed, c, e);
    }
  }

  /** Error-free runs of one controller from a fresh instance. */
  ghost predicate Admissible(parse: Semver.Parser, c: Cluster, events: seq<Event>) {
    Initial(c) && Sane(parse) && ErrorFree(events) && Uniform(events, parse) && OptionsFixed(c, events)
  }

  lemma {:induction false} RunKeeps(parse: Semver.Parser, c: Cluster, events: seq<Event>)
    requires Admissible(parse, c, events)
    ensures Inv(parse, Renewed(c, events), Run(c, events)) && Run(c, events).inst.status.au.backupPath == ""
    decreases |events|, 1
  {
    BackupPathIsNeverRecorded(c, events);
    if events != [] {
      AdmissibleBefore(parse, c, events);
      LastStepKeeps(parse, c, events);
    }
  }

  lemma {:induction false} AdmissibleBefore(parse: Semver.Parser, c: Cluster, events: seq<Event>)
    requires Admissible(parse, c, events) && events != []
    ensures Admissible(parse, c, events[..|events| - 1])
    ensures events[|events| - 1].EditOptions? ==> Run(c, events[..|events| - 1]).inst.status.au.pending == ""
  {
    OptionsFixedBefore(c, events);
  }

  lemma {:induction false} LastStepKeeps(parse: Semver.Parser, c: Cluster, events: seq<Event>)
    requires Admissible(parse, c, events) && events != [] && Admissible(parse, c, events[..|events| - 1])
    ensures Inv(parse, Renewed(c, events), Run(c, events))
    ensures BackupExit(Run(c, events[..|events| - 1]), Run(c, events))
    decreases |events|, 0
  {
    var init, e := events[..|events| - 1], events[|events| - 1];
    RunKeeps(parse, c, init);
    AdmissibleBefore(parse, c, events);
    StepKeeps(parse, Renewed(c, init), Run(c, init), e);
  }
}
