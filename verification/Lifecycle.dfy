/** One Reconcile of the instance, in the order of its early returns
    (internal/controller/openclawinstance_controller.go), and runs that interleave
    reconciles with everything the environment may do. */
module Lifecycle {
  import opened Wrappers
  import opened Rclone
  import opened Cluster
  import opened AutoUpdate
  import opened Deletion
  import Semver

  function ImageTag(tag: string): string {
    if tag == "" then "latest" else tag
  }

  /** statefulSetReplicas */
  function DesiredReplicas(spec: Spec): Option<nat> {
    if spec.suspended then Some(0) else if spec.options.hpa then None else Some(1)
  }

  /** The StatefulSet that reconcileStatefulSet leaves behind: under an HPA, and only when not
      suspended, the existing replica count is kept. */
  function DesiredStatefulSet(spec: Spec, existing: Option<StatefulSet>): StatefulSet {
    var desired := DesiredReplicas(spec);
    if existing.None? then StatefulSet(desired, ImageTag(spec.tag), 0, 0)
    else
      var keep := spec.options.hpa && !spec.suspended && existing.value.replicas.Some?;
      existing.value.(template := ImageTag(spec.tag),
                      replicas := if keep then existing.value.replicas else desired)
  }

  /** reconcileResources, with one call for the steps before the StatefulSet, one for the
      StatefulSet and one for the steps after it. */
  function ReconcileResources(w: World): Reply {
    var Reply(w, ok) := Call(w);
    if !ok then Reply(w, false)
    else
      var Reply(w, ok) := Commit(w, w.db.(sts := Some(DesiredStatefulSet(w.inst.spec, w.db.sts))));
      if !ok then Reply(w, false) else Call(w)
  }

  function WriteIfChanged(w: World, saved: Status, i: Inputs): Reply {
    if w.inst.status != saved || i.conditionsChanged then WriteStatus(w) else Reply(w, true)
  }

  /** The end of a reconcile: an error if its last write failed. */
  function Conclude(r: Reply, requeue: Requeue): Ret {
    Ret(r.w, if r.ok then requeue else Never, !r.ok)
  }

  /** Phase derived from readiness after the resources are in place. */
  function ObservedPhase(w: World, i: Inputs): Phase {
    if w.db.sts.None? || w.db.sts.value.ready == 0 then Provisioning
    else if i.packsFailed then Degraded
    else Running
  }

  function ReconcileRest(w: World, saved: Status, i: Inputs): Ret {
    var Reply(w, ok) := ReconcileResources(w);
    if !ok then Ret(WriteStatus(SetPhase(w, FailedPhase)).w, In(120), true)
    else if w.inst.spec.suspended then Conclude(WriteIfChanged(SetPhase(w, Suspended), saved, i), In(300))
    else
      var r := ReconcileAutoUpdate(SetPhase(w, ObservedPhase(w, i)), i);
      var delay := if w.db.sts.None? || w.db.sts.value.ready == 0 then 10 else 300;
      var requeue := if r.requeue.Now? then Now
                     else if r.requeue.In? && r.requeue.seconds < delay then r.requeue
                     else In(delay);
      Conclude(WriteIfChanged(r.w, saved, i), requeue)
  }

  /** From the status snapshot on: a pending update comes first and, as long as it asks to be
      requeued, keeps everything after it from running. */
  function ReconcileProvisioned(w: World, i: Inputs): Ret {
    var saved := w.inst.status;
    if w.inst.status.au.pending != "" && !w.inst.spec.suspended then
      var r := ReconcileAutoUpdate(w, i);
      if r.requeue.Never? then ReconcileRest(r.w, saved, i)
      else Conclude(WriteStatus(r.w), r.requeue)
    else ReconcileRest(w, saved, i)
  }

  function ReconcileWorld(w: World, i: Inputs): Ret {
    if Gone(w.inst.spec) then Ret(w, Never, false)
    else
      var Reply(w, ok) := Call(w);
      if !ok then Ret(w, Never, true)
      else if w.inst.spec.deleting then ReconcileDeleteWithBackup(w, i)
      else if !w.inst.spec.finalizer then
        Conclude(Commit(w, WithSpec(w.db, w.db.inst.spec.(finalizer := true))), Now)
      else match w.inst.status.phase
        case Unset => Conclude(WriteStatus(SetPhase(w, Pending)), Now)
        case Pending =>
          var Reply(w, ok) := WriteStatus(SetPhase(w, Provisioning));
          if !ok then Ret(w, Never, true)
          else
            var r := ResolveInitialTag(w, i);
            if r.err || r.requeue.Now? then r else ReconcileProvisioned(r.w, i)
        case _ => ReconcileProvisioned(w, i)
  }

  function Reconcile(c: Cluster, i: Inputs, fate: Fate): Ret {
    ReconcileWorld(World(c, c.inst, fate), i)
  }

  // ----- runs -----

  datatype Event =
    | Reconciled(input: Inputs, fate: Fate)
    | TimePasses(seconds: nat)
    | PodStarts
    | PodStops
    | StatefulSetReports(ready: nat, updated: nat)
    | JobReports(name: JobName, conditions: seq<JobCondition>)
    | JobExpires(name: JobName)
    | HpaScales(replicas: nat)
    | RegistryChanges(tags: seq<string>)
    | SetSuspended(suspended: bool)
    | EditOptions(options: Options)
    | EditTag(tag: string)
    | ChangeSecret(secret: Option<Secret>)
    | RequestDeletion
    | Annotate(skipBackup: bool)

  /** An event whose guard fails does not happen. */
  predicate Enabled(c: Cluster, e: Event) {
    match e
    case PodStarts => c.sts.Some? && c.pods < Replicas(c.sts.value)
    case PodStops => c.pods > 0
    case StatefulSetReports(_, _) => c.sts.Some?
    case JobReports(name, _) => JobUnfinished(c, name)
    case JobExpires(name) => name in c.jobs && !JobUnfinished(c, name)
    case HpaScales(n) => c.inst.spec.options.hpa && c.sts.Some? && Replicas(c.sts.value) > 0 && n > 0
    case _ => true
  }

  function Apply(c: Cluster, e: Event): Cluster
    requires Enabled(c, e)
  {
    match e
    case Reconciled(i, fate) => Reconcile(c, i, fate).w.db
    case TimePasses(n) => c.(now := c.now + n)
    case PodStarts => c.(pods := c.pods + 1)
    case PodStops => c.(pods := c.pods - 1)
    case StatefulSetReports(r, u) => c.(sts := Some(c.sts.value.(ready := r, updated := u)))
    case JobReports(name, conditions) => c.(jobs := c.jobs[name := c.jobs[name].(conditions := conditions)])
    case JobExpires(name) => c.(jobs := c.jobs - {name})
    case HpaScales(n) => c.(sts := Some(c.sts.value.(replicas := Some(n))))
    case RegistryChanges(tags) => c.(tags := tags)
    case SetSuspended(b) => WithSpec(c, c.inst.spec.(suspended := b))
    case EditOptions(o) => WithSpec(c, c.inst.spec.(options := o))
    case EditTag(t) => WithSpec(c, c.inst.spec.(tag := t))
    case ChangeSecret(s) => c.(secret := s)
    case RequestDeletion => WithSpec(c, c.inst.spec.(deleting := true))
    case Annotate(b) => WithSpec(c, c.inst.spec.(skipBackup := b))
  }

  function Step(c: Cluster, e: Event): Cluster {
    if Enabled(c, e) then Apply(c, e) else c
  }

  function Run(c: Cluster, events: seq<Event>): Cluster {
    if events == [] then c else Step(Run(c, events[..|events| - 1]), events[|events| - 1])
  }

  /** A freshly created instance in an otherwise empty namespace. */
  predicate Initial(c: Cluster) {
    && c.inst.status == Status(Unset, UpdateStatus("", "", "", Idle, None, None, "", "", "", 0), None, "")
    && c.sts.None? && c.pods == 0 && c.jobs == map[] && c.history.Start?
    && !c.inst.spec.deleting && !c.inst.spec.finalizer
  }

  /** Every reconcile of the run understands tags the same way. */
  ghost predicate Uniform(events: seq<Event>, parse: Semver.Parser) {
    forall k :: 0 <= k < |events| && events[k].Reconciled? ==> events[k].input.parse == parse
  }

  /** Only the controller edits the tag, and every API call of a reconcile succeeds. */
  predicate ErrorFreeEvent(e: Event) {
    (e.Reconciled? ==> e.fate.Smooth?) && !e.EditTag?
  }

  predicate ErrorFree(events: seq<Event>) {
    forall k :: 0 <= k < |events| ==> ErrorFreeEvent(events[k])
  }

  /** Options stay as they are while an update is pending. */
  predicate OptionsFixed(c: Cluster, events: seq<Event>) {
    forall k :: 0 <= k < |events| && events[k].EditOptions? ==> Run(c, events[..k]).inst.status.au.pending == ""
  }

  lemma {:induction false} OptionsFixedBefore(c: Cluster, events: seq<Event>)
    requires OptionsFixed(c, events) && events != []
    ensures OptionsFixed(c, events[..|events| - 1])
  {
    var init := events[..|events| - 1];
    forall k | 0 <= k < |init| && init[k].EditOptions? ensures Run(c, init[..k]).inst.status.au.pending == "" {
      assert init[..k] == events[..k];
    }
  }
}
