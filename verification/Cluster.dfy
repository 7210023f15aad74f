/** The objects the controller persists, the environment around them, and the API calls that
    may succeed, fail, or never return because the process stopped. */
module Cluster {
  import opened Wrappers
  import opened Rclone

  // ----- the OpenClawInstance -----

  datatype UpdatePhase = Idle | BackingUp | ApplyingUpdate | HealthCheck | RollingBack

  datatype Phase = Unset | Pending | Provisioning | Running | Degraded | FailedPhase
                 | Terminating | BackingUpPhase | Updating | Suspended

  /** status.autoUpdate; an unset version is the empty string. */
  datatype UpdateStatus = UpdateStatus(
    current: string, latest: string, pending: string, phase: UpdatePhase,
    lastCheck: Option<int>, lastUpdate: Option<int>,
    previous: string, backupPath: string, failed: string, rollbacks: int)

  datatype Status = Status(phase: Phase, au: UpdateStatus, backingUpSince: Option<int>, lastBackupPath: string)

  /** A duration field: empty, not a duration, or a number of seconds. */
  datatype Setting = Empty | Malformed | Seconds(n: int)

  /** The parts of the spec, apart from the tag, that the lifecycle reads. */
  datatype Options = Options(
    enabled: bool, digestPinned: bool, backupBeforeUpdate: bool, rollbackOnFailure: bool,
    persistence: bool, hpa: bool,
    checkInterval: Setting, healthCheckTimeout: Setting, backupTimeout: Setting)

  /** Metadata and spec: everything that is not written through the status subresource. */
  datatype Spec = Spec(
    name: string, tenant: string, tag: string, suspended: bool, options: Options,
    deleting: bool, finalizer: bool, skipBackup: bool)

  datatype Instance = Instance(spec: Spec, status: Status)

  // ----- owned objects -----

  datatype StatefulSet = StatefulSet(replicas: Option<nat>, template: string, ready: nat, updated: nat)

  datatype JobName = PreUpdateBackup | RollbackRestore | DeletionBackup

  // ----- what the controller announces as Kubernetes Events -----

  datatype Reason = BackupFailed | PatchFailed | ScaleUpFailed | NoPreviousVersion

  datatype Notice =
    | TagResolved(version: string)
    | Available(version: string, running: string)
    | Applied(version: string, final: bool)
    | Confirmed(version: string)
    | HealthCheckFailed(version: string)
    | RolledBack(version: string, restored: string)
    | Aborted(reason: Reason)
    | BackupStarted(path: string)
    | BackupTimedOut
    | BackupSkipped
    | BackupComplete(path: string)

  datatype History = Start | After(past: History, notice: Notice)

  datatype Cluster = Cluster(
    inst: Instance, sts: Option<StatefulSet>, pods: nat, jobs: map<JobName, Job>,
    secret: Option<Secret>, tags: seq<string>, now: int, history: History)

  /** A deleted instance whose finalizer is gone no longer exists. */
  predicate Gone(spec: Spec) {
    spec.deleting && !spec.finalizer
  }

  function Replicas(sts: StatefulSet): nat {
    if sts.replicas.None? then 1 else sts.replicas.value
  }

  predicate JobUnfinished(c: Cluster, name: JobName) {
    name in c.jobs && VerdictOf(c.jobs[name].conditions).Unfinished?
  }

  // ----- API calls -----

  /** The fate of the API calls still to come: they all succeed, the process has stopped and none
      takes place, or the next one succeeds or returns an error and the others follow. */
  datatype Fate = Smooth | Stopped | Next(ok: bool, rest: Fate)

  /** One reconcile at work: the API server, the controller's own copy of the instance, and what
      will become of its calls. */
  datatype World = World(db: Cluster, inst: Instance, fate: Fate)

  datatype Reply = Reply(w: World, ok: bool)

  function Call(w: World): Reply {
    match w.fate
    case Smooth => Reply(w, true)
    case Stopped => Reply(w, false)
    case Next(ok, rest) => Reply(w.(fate := rest), ok)
  }

  /** Write through a call: `db` becomes the server's state if the call succeeds. */
  function Commit(w: World, db: Cluster): Reply {
    var r := Call(w);
    if r.ok then Reply(r.w.(db := db), true) else r
  }

  function WriteStatus(w: World): Reply {
    Commit(w, w.db.(inst := w.db.inst.(status := w.inst.status)))
  }

  /** Assign the tag to the local copy and patch it onto the server's. */
  function PatchTag(w: World, tag: string): Reply {
    Commit(w.(inst := w.inst.(spec := w.inst.spec.(tag := tag))), WithSpec(w.db, w.db.inst.spec.(tag := tag)))
  }

  function WithSpec(c: Cluster, spec: Spec): Cluster {
    c.(inst := c.inst.(spec := spec))
  }

  function PatchReplicas(w: World, n: nat): Reply
    requires w.db.sts.Some?
  {
    Commit(w, w.db.(sts := Some(w.db.sts.value.(replicas := Some(n)))))
  }

  function CreateJob(w: World, name: JobName, job: Job): Reply {
    Commit(w, w.db.(jobs := w.db.jobs[name := job]))
  }

  function Emit(w: World, n: Notice): World {
    if w.fate.Stopped? then w else w.(db := w.db.(history := After(w.db.history, n)))
  }

  function SetPhase(w: World, p: Phase): World {
    w.(inst := w.inst.(status := w.inst.status.(phase := p)))
  }

  function SetAutoUpdate(w: World, au: UpdateStatus): World {
    w.(inst := w.inst.(status := w.inst.status.(au := au)))
  }

  /** getS3Credentials: the Secret may be missing, unusable, or unreadable. */
  datatype CredentialReply = Usable(creds: Credentials) | Missing | Unusable

  function ReadCredentials(w: World): (World, CredentialReply) {
    var r := Call(w);
    if !r.ok then (r.w, Unusable)
    else if r.w.db.secret.None? then (r.w, Missing)
    else match ParseSecret(r.w.db.secret.value)
      case Some(creds) => (r.w, Usable(creds))
      case None => (r.w, Unusable)
  }

  /** reconcileS3MirrorSecret: nothing to do for workload identity. */
  function MirrorSecret(w: World, creds: Credentials): Reply {
    if creds.envAuth then Reply(w, true) else Call(w)
  }

  // ----- results of controller functions -----

  datatype Requeue = Never | Now | In(seconds: nat)

  datatype Ret = Ret(w: World, requeue: Requeue, err: bool)

  /** Results of the backup drivers: `done` means the backup is complete. */
  datatype BackupRet = BackupRet(w: World, requeue: Requeue, done: bool, err: bool)

  // ----- duration fields -----

  function Clamp(s: Setting, default: int, low: int, high: int): (d: int)
    requires low <= default <= high
    ensures low <= d <= high
    ensures s.Seconds? && low <= s.n <= high ==> d == s.n
    ensures s.Seconds? && s.n < low ==> d == low
    ensures s.Seconds? && s.n > high ==> d == high
    ensures !s.Seconds? ==> d == default
  {
    if !s.Seconds? then default
    else if s.n < low then low
    else if s.n > high then high
    else s.n
  }

  /** In seconds: 2 to 30 minutes, 10 by default. */
  function HealthCheckTimeout(s: Setting): (d: int)
    ensures 120 <= d <= 1800 && (!s.Seconds? ==> d == 600) && (s.Seconds? && 120 <= s.n <= 1800 ==> d == s.n)
    ensures s.Seconds? && s.n < 120 ==> d == 120
    ensures s.Seconds? && s.n > 1800 ==> d == 1800
  {
    Clamp(s, 600, 120, 1800)
  }

  /** 1 hour to 7 days, 24 hours by default. */
  function CheckInterval(s: Setting): (d: int)
    ensures 3600 <= d <= 604800 && (!s.Seconds? ==> d == 86400) && (s.Seconds? && 3600 <= s.n <= 604800 ==> d == s.n)
    ensures s.Seconds? && s.n < 3600 ==> d == 3600
    ensures s.Seconds? && s.n > 604800 ==> d == 604800
  {
    Clamp(s, 86400, 3600, 604800)
  }

  /** 5 minutes to 24 hours, 30 minutes by default. */
  function BackupTimeout(s: Setting): (d: int)
    ensures 300 <= d <= 86400 && (!s.Seconds? ==> d == 1800) && (s.Seconds? && 300 <= s.n <= 86400 ==> d == s.n)
    ensures s.Seconds? && s.n < 300 ==> d == 300
    ensures s.Seconds? && s.n > 86400 ==> d == 86400
  {
    Clamp(s, 1800, 300, 86400)
  }
}
