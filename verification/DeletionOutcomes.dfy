/** What one error-free reconcile of an instance that is being deleted comes to, state by state. */
module DeletionOutcomes {
  import opened Wrappers
  import opened Rclone
  import opened Cluster
  import opened AutoUpdate
  import opened Deletion
  import opened Lifecycle
  import UpdateSafety
  import Resilience

  function End(c: Cluster, i: Inputs): Cluster {
    Reconcile(c, i, Smooth).w.db
  }

  function Wait(c: Cluster, i: Inputs): Requeue {
    Reconcile(c, i, Smooth).requeue
  }

  predicate Leaving(c: Cluster) {
    c.inst.spec.deleting && c.inst.spec.finalizer
  }

  /** The object may go: no finalizer, phase Terminating. */
  function LetGo(c: Cluster): Cluster {
    c.(inst := Instance(c.inst.spec.(finalizer := false), c.inst.status.(phase := Terminating)))
  }

  function ClockStopped(c: Cluster): Cluster {
    c.(inst := c.inst.(status := c.inst.status.(backingUpSince := None)))
  }

  function Noted(c: Cluster, n: Notice): Cluster {
    c.(history := After(c.history, n))
  }

  lemma {:induction false} TerminateWorld(w: World)
    requires w.fate.Smooth? && w.inst.spec == w.db.inst.spec
    ensures Terminate(w).w.db == LetGo(w.db.(inst := w.inst)) && Terminate(w).requeue.Never? && !Terminate(w).err
  {
  }

  /** Nothing to save: the skip annotation, or no volume. */
  lemma {:induction false} SkippedOutcome(c: Cluster, i: Inputs)
    requires Leaving(c) && (c.inst.spec.skipBackup || !c.inst.spec.options.persistence)
    ensures End(c, i) == LetGo(c)
  {
    TerminateWorld(World(c, c.inst, Smooth));
  }

  predicate Saving(c: Cluster) {
    Leaving(c) && !c.inst.spec.skipBackup && c.inst.spec.options.persistence
  }

  /** A deletion that has just begun starts its clock and goes on as one that has. */
  lemma {:induction false} FirstOutcome(c: Cluster, i: Inputs)
    requires Saving(c) && Resilience.LivePhase(c.inst.status.phase)
    ensures var d := c.(inst := c.inst.(status := c.inst.status.(phase := BackingUpPhase, backingUpSince := Some(c.now))));
            End(c, i) == End(d, i) && Wait(c, i) == Wait(d, i)
  {
  }

  predicate Late(c: Cluster) {
    c.inst.status.backingUpSince.Some?
    && c.now - c.inst.status.backingUpSince.value >= BackupTimeout(c.inst.spec.options.backupTimeout)
  }

  predicate Under(c: Cluster) {
    Saving(c) && (c.inst.status.phase.BackingUpPhase? || c.inst.status.phase.Terminating?)
  }

  /** Past its deadline the object goes without a backup. */
  lemma {:induction false} LateOutcome(c: Cluster, i: Inputs)
    requires Under(c) && Late(c)
    ensures End(c, i) == Noted(LetGo(ClockStopped(c)), BackupTimedOut)
  {
    TerminateWorld(SetBackingUpSince(Emit(World(c, c.inst, Smooth), BackupTimedOut), None));
  }

  /** The workload is scaled down first and its pods are waited for. */
  lemma {:induction false} QuiesceOutcome(c: Cluster, i: Inputs)
    requires Under(c) && !Late(c) && c.sts.Some? && !UpdateSafety.ScaledDown(c)
    ensures Wait(c, i) == In(5)
    ensures End(c, i) == if c.sts.value.replicas != Some(0) then c.(sts := Some(c.sts.value.(replicas := Some(0)))) else c
  {
  }

  /** Nothing runs on the volume any more. */
  predicate Quiet(c: Cluster) {
    Under(c) && !Late(c) && (c.sts.None? || UpdateSafety.ScaledDown(c))
  }

  /** From there on only the credentials and the Job count. */
  lemma {:induction false} QuietReconcile(c: Cluster, i: Inputs)
    requires Quiet(c)
    ensures var r := BackUpForDeletion(World(c, c.inst, Smooth), i);
            Reconcile(c, i, Smooth) == r
  {
  }

  /** Without credentials the object goes; unusable ones are asked for again. */
  lemma {:induction false} NoCredentialsOutcome(c: Cluster, i: Inputs)
    requires Quiet(c) && !UpdateSafety.Readable(c.secret)
    ensures if c.secret.None? then End(c, i) == Noted(LetGo(c), BackupSkipped)
            else End(c, i) == c && Wait(c, i) == In(30)
  {
    QuietReconcile(c, i);
    if c.secret.None? {
      TerminateWorld(Emit(World(c, c.inst, Smooth), BackupSkipped));
    }
  }

  /** The remote path of a deletion: the settled one, or a new one of the instance's own. */
  function PathFor(c: Cluster, stamp: string): string {
    if c.inst.status.lastBackupPath != "" then c.inst.status.lastBackupPath
    else "backups/" + c.inst.spec.tenant + "/" + c.inst.spec.name + "/" + stamp
  }

  /** Without a Job, one is created for a path that the status holds. */
  lemma {:induction false} StartOutcome(c: Cluster, i: Inputs)
    requires Quiet(c) && UpdateSafety.Readable(c.secret) && DeletionBackup !in c.jobs
    ensures var path := PathFor(c, i.stamp);
            && Wait(c, i) == In(10)
            && End(c, i) == Noted(c.(inst := c.inst.(status := c.inst.status.(lastBackupPath := path)),
                 jobs := c.jobs[DeletionBackup := BackupJob(ParseSecret(c.secret.value).value, path)]), BackupStarted(path))
  {
    QuietReconcile(c, i);
    var w, creds := World(c, c.inst, Smooth), ParseSecret(c.secret.value).value;
    assert BackUpForDeletion(w, i) == StartDeletionBackup(w, i, creds);
  }

  /** A Job at work is waited for, a failed one too, and a completed one lets the object go. */
  lemma {:induction false} JobOutcome(c: Cluster, i: Inputs)
    requires Quiet(c) && UpdateSafety.Readable(c.secret) && DeletionBackup in c.jobs
    ensures match VerdictOf(c.jobs[DeletionBackup].conditions)
            case Unfinished => End(c, i) == c && Wait(c, i) == In(10)
            case Failed => End(c, i) == c && Wait(c, i) == In(30)
            case Completed => End(c, i) == Noted(LetGo(ClockStopped(c)), BackupComplete(c.inst.status.lastBackupPath))
  {
    QuietReconcile(c, i);
    var w, creds := World(c, c.inst, Smooth), ParseSecret(c.secret.value).value;
    assert BackUpForDeletion(w, i) == AwaitDeletionJob(w, VerdictOf(c.jobs[DeletionBackup].conditions));
    TerminateWorld(SetBackingUpSince(Emit(w, BackupComplete(c.inst.status.lastBackupPath)), None));
  }

  /** The finalizer goes exactly if there is nothing to save, the deadline has passed, or, with nothing
      running on the volume, there are no credentials or the backup is complete. */
  lemma {:induction false} LetGoExactly(c: Cluster, i: Inputs)
    requires Leaving(c)
    ensures !End(c, i).inst.spec.finalizer <==>
      || c.inst.spec.skipBackup || !c.inst.spec.options.persistence
      || (!Resilience.LivePhase(c.inst.status.phase) && Late(c))
      || ((c.sts.None? || UpdateSafety.ScaledDown(c)) &&
            (c.secret.None? || (UpdateSafety.Readable(c.secret) && DeletionBackup in c.jobs
                                && VerdictOf(c.jobs[DeletionBackup].conditions).Completed?)))
  {
    if c.inst.spec.skipBackup || !c.inst.spec.options.persistence {
      SkippedOutcome(c, i);
    } else if Resilience.LivePhase(c.inst.status.phase) {
      FirstOutcome(c, i);
      LetGoUnder(c.(inst := c.inst.(status := c.inst.status.(phase := BackingUpPhase, backingUpSince := Some(c.now)))), i);
    } else {
      LetGoUnder(c, i);
    }
  }

  lemma {:induction false} LetGoUnder(c: Cluster, i: Inputs)
    requires Under(c)
    ensures !End(c, i).inst.spec.finalizer <==>
      || Late(c)
      || ((c.sts.None? || UpdateSafety.ScaledDown(c)) &&
            (c.secret.None? || (UpdateSafety.Readable(c.secret) && DeletionBackup in c.jobs
                                && VerdictOf(c.jobs[DeletionBackup].conditions).Completed?)))
  {
    if Late(c) {
      LateOutcome(c, i);
    } else if c.sts.Some? && !UpdateSafety.ScaledDown(c) {
      QuiesceOutcome(c, i);
    } else if !UpdateSafety.Readable(c.secret) {
      NoCredentialsOutcome(c, i);
    } else if DeletionBackup !in c.jobs {
      StartOutcome(c, i);
    } else {
      JobOutcome(c, i);
    }
  }

  // ----- paths -----

  predicate Plain(s: string) {
    '/' !in s
  }

  lemma {:induction false} UpToSlash(a: string, x: string, b: string, y: string)
    requires Plain(a) && Plain(b) && a + "/" + x == b + "/" + y
    ensures a == b && x == y
  {
    var s, t := a + "/" + x, b + "/" + y;
    assert s[|a|] == '/' && t[|b|] == '/';
    assert s[..|a|] == a && t[..|b|] == b && s[|a| + 1..] == x && t[|b| + 1..] == y;
  }

  lemma PathParts(tenant: string, name: string, tail: string)
    ensures "backups/" + tenant + "/" + name + "/" + tail == "backups/" + (tenant + "/" + (name + "/" + tail))
  {
  }

  lemma SamePrefix(prefix: string, a: string, b: string)
    requires prefix + a == prefix + b
    ensures a == b
  {
    assert (prefix + a)[|prefix|..] == a && (prefix + b)[|prefix|..] == b;
  }

  lemma {:induction false} SamePath(t: string, n: string, x: string, u: string, m: string, y: string)
    requires Plain(t) && Plain(n) && Plain(u) && Plain(m)
    requires "backups/" + t + "/" + n + "/" + x == "backups/" + u + "/" + m + "/" + y
    ensures t == u && n == m && x == y
  {
    PathParts(t, n, x);
    PathParts(u, m, y);
    SamePrefix("backups/", t + "/" + (n + "/" + x), u + "/" + (m + "/" + y));
    UpToSlash(t, n + "/" + x, u, m + "/" + y);
    UpToSlash(n, x, m, y);
  }

  /** Different instances, and different stamps of one, are backed up to different paths. */
  lemma {:induction false} PathsAreApart(a: Spec, s: string, b: Spec, t: string)
    requires Plain(a.tenant) && Plain(a.name) && Plain(b.tenant) && Plain(b.name)
    ensures DeletionPath(a, s) == DeletionPath(b, t) ==> a.tenant == b.tenant && a.name == b.name && s == t
    ensures PreUpdatePath(a, s) == PreUpdatePath(b, t) ==> a.tenant == b.tenant && a.name == b.name && s == t
    ensures PreUpdatePath(a, s) == DeletionPath(b, t) ==> a.tenant == b.tenant && a.name == b.name && t == "pre-update-" + s
  {
    PreUpdateTail(a, s);
    PreUpdateTail(b, t);
    if DeletionPath(a, s) == DeletionPath(b, t) {
      SamePath(a.tenant, a.name, s, b.tenant, b.name, t);
    }
    if PreUpdatePath(a, s) == PreUpdatePath(b, t) {
      SamePath(a.tenant, a.name, "pre-update-" + s, b.tenant, b.name, "pre-update-" + t);
      SamePrefix("pre-update-", s, t);
    }
    if PreUpdatePath(a, s) == DeletionPath(b, t) {
      SamePath(a.tenant, a.name, "pre-update-" + s, b.tenant, b.name, t);
    }
  }

  lemma PreUpdateTail(a: Spec, s: string)
    ensures PreUpdatePath(a, s) == "backups/" + a.tenant + "/" + a.name + "/" + ("pre-update-" + s)
  {
  }
}
