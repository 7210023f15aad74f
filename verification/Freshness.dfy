/** No version comes back: if the registry's answers never go down, a version that was confirmed or
    rolled back never becomes pending again. */
module Freshness {
  import opened Wrappers
  import opened Rclone
  import opened Cluster
  import opened AutoUpdate
  import opened Deletion
  import opened Lifecycle
  import opened DeletionFrame
  import opened Resilience
  import opened UpdateSafety
  import Semver

  /** The version a notice settles, one way or the other. */
  function Settles(n: Notice): set<string> {
    match n
    case Applied(version, final) => if final then {version} else {}
    case Confirmed(version) => {version}
    case RolledBack(version, _) => {version}
    case _ => {}
  }

  function Done(h: History): set<string> {
    match h
    case Start => {}
    case After(past, n) => Done(past) + Settles(n)
  }

  /** A version is settled at most once, and never announced after that. */
  predicate Fresh(h: History) {
    match h
    case Start => true
    case After(past, n) =>
      Fresh(past) && Settles(n) !! Done(past) && (n.Available? ==> n.version !in Done(past))
  }

  /** `next` may follow `now` as the registry's answer: no lower, and an equal version is the same tag. */
  predicate Ascends(parse: Semver.Parser, now: Option<string>, next: Option<string>) {
    now.Some? ==>
      && next.Some? && parse(now.value).Some? && parse(next.value).Some?
      && !Semver.Below(parse(next.value).value, parse(now.value).value)
      && (parse(now.value) == parse(next.value) ==> now == next)
  }

  /** The part of a cluster this is about, with the registry's last answer. */
  datatype Story = Story(history: History, pending: string, failed: string, tag: string, answer: Option<string>)

  function Tell(heard: Option<string>, c: Cluster): Story {
    Story(c.history, c.inst.status.au.pending, c.inst.status.au.failed, c.inst.spec.tag, heard)
  }

  /** Whether the version check of a reconcile asks the registry. */
  predicate Consults(inst: Instance, now: int, i: Inputs) {
    && !inst.spec.suspended && inst.status.au.pending == ""
    && IsAutoUpdateEnabled(inst.spec) && i.resolver
    && inst.status.au.rollbacks < MAX_ROLLBACKS && ShouldCheckForUpdate(inst, now)
  }

  /** Whether the initial resolution of the tag asks the registry. */
  predicate ConsultsFirst(inst: Instance, i: Inputs) {
    inst.status.phase.Pending? && IsAutoUpdateEnabled(inst.spec) && inst.spec.tag == "latest" && i.resolver
  }

  /** Whether a reconcile asks the registry at all. */
  predicate Asks(c: Cluster, i: Inputs) {
    && !c.inst.spec.deleting && c.inst.spec.finalizer && !c.inst.status.phase.Unset?
    && (Consults(c.inst, c.now, i) || ConsultsFirst(c.inst, i))
  }

  /** What the registry answers at a cluster, None being an error. */
  function AnswerAt(c: Cluster, i: Inputs): Option<string> {
    LatestVersion(World(c, c.inst, Smooth), i)
  }

  /** An answer, if there is one, is the last one heard. */
  predicate Hears(heard: Option<string>, c: Cluster, i: Inputs) {
    AnswerAt(c, i).Some? ==> heard == AnswerAt(c, i)
  }

  predicate Under(parse: Semver.Parser, v: string, w: string) {
    parse(v).Some? && parse(w).Some? && Semver.Below(parse(v).value, parse(w).value)
  }

  /** Nothing settled can still look like news: it is the version known to have failed, or lower than
      the registry's answer, or not above the tag. */
  predicate Surpassed(parse: Semver.Parser, s: Story, v: string) {
    || v == s.failed
    || (s.answer.Some? && Under(parse, v, s.answer.value))
    || (parse(s.tag).Some? && parse(v).Some? && !Under(parse, s.tag, v))
  }

  ghost predicate FreshInv(parse: Semver.Parser, s: Story) {
    && Fresh(s.history)
    && (forall v :: v in Done(s.history) ==> Ascends(parse, Some(v), s.answer))
    && (s.pending != "" ==> Ascends(parse, Some(s.pending), s.answer))
    && (s.pending != "" ==> forall v :: v in Done(s.history) ==> Under(parse, v, s.pending))
    && (s.pending == "" ==> forall v :: v in Done(s.history) ==> Surpassed(parse, s, v))
  }

  // ----- the moves of a story -----

  predicate Silent(n: Notice) {
    Settles(n) == {} && !n.Available?
  }

  /** `h` continues `h0` without announcing or settling anything. */
  predicate Silently(h0: History, h: History) {
    h == h0 || (h.After? && Silent(h.notice) && Silently(h0, h.past))
  }

  /** Nothing but silent notices; with nothing pending the tag stays or becomes the answer. */
  predicate Idles(s: Story, t: Story) {
    && Silently(s.history, t.history) && t.pending == s.pending && t.failed == s.failed && t.answer == s.answer
    && (s.pending == "" ==> t.tag == s.tag || Some(t.tag) == s.answer)
  }

  predicate Drops(s: Story, t: Story) {
    && Silently(s.history, t.history) && s.pending != "" && t.pending == "" && t.answer == s.answer
  }

  predicate Concludes(s: Story, t: Story) {
    && t.history.After? && t.history.past == s.history && Settles(t.history.notice) == {s.pending}
    && !t.history.notice.Available?
    && s.pending != "" && t.pending == "" && t.answer == s.answer
    && (t.tag == s.pending || t.failed == s.pending)
  }

  predicate Announces(parse: Semver.Parser, s: Story, t: Story) {
    && s.pending == "" && t.pending != "" && t.answer == s.answer == Some(t.pending)
    && t.history == After(s.history, Available(t.pending, s.tag)) && t.tag == s.tag
    && Under(parse, s.tag, t.pending) && s.failed != t.pending
  }

  predicate Moves(parse: Semver.Parser, s: Story, t: Story) {
    Idles(s, t) || Drops(s, t) || Concludes(s, t) || Announces(parse, s, t)
  }

  lemma {:induction false} SilentKeeps(h0: History, h: History)
    requires Silently(h0, h)
    ensures Done(h) == Done(h0) && (Fresh(h0) ==> Fresh(h))
  {
    if h != h0 {
      SilentKeeps(h0, h.past);
    }
  }

  lemma {:induction false} UnderOrder(parse: Semver.Parser, u: string, v: string, w: string)
    ensures Under(parse, u, v) && Under(parse, v, w) ==> Under(parse, u, w)
    ensures !Under(parse, u, u)
    ensures Under(parse, u, v) ==> !Under(parse, v, u)
    ensures parse(u).Some? && parse(v).Some? && !Under(parse, u, v) && !Under(parse, v, u) ==> parse(u) == parse(v)
    ensures parse(v).Some? && !Under(parse, v, u) && Under(parse, v, w) ==> parse(u).Some? ==> Under(parse, u, w)
    ensures parse(v).Some? && parse(w).Some? && Under(parse, u, v) && !Under(parse, w, v) ==> Under(parse, u, w)
  {
    if parse(u).Some? && parse(v).Some? {
      var a, b := parse(u).value, parse(v).value;
      Semver.PrecedenceIsTotalOrder(a, b, a);
      Semver.PrecedenceIsTotalOrder(b, a, b);
      if parse(w).Some? {
        Semver.PrecedenceIsTotalOrder(a, b, parse(w).value);
        Semver.PrecedenceIsTotalOrder(b, parse(w).value, a);
      }
    }
    if parse(u).Some? {
      Semver.PrecedenceIsTotalOrder(parse(u).value, parse(u).value, parse(u).value);
    }
  }

  lemma {:induction false} IdlesKeeps(parse: Semver.Parser, s: Story, t: Story)
    requires FreshInv(parse, s) && Idles(s, t)
    ensures FreshInv(parse, t)
  {
    SilentKeeps(s.history, t.history);
    forall v | v in Done(t.history) && t.pending == "" ensures Surpassed(parse, t, v) {
      assert Surpassed(parse, s, v) && Ascends(parse, Some(v), s.answer);
    }
  }

  lemma {:induction false} DropsKeeps(parse: Semver.Parser, s: Story, t: Story)
    requires FreshInv(parse, s) && Drops(s, t)
    ensures FreshInv(parse, t)
  {
    SilentKeeps(s.history, t.history);
    forall v | v in Done(t.history) ensures Surpassed(parse, t, v) {
      UnderOrder(parse, v, s.pending, s.answer.value);
    }
  }

  lemma {:induction false} ConcludesKeeps(parse: Semver.Parser, s: Story, t: Story)
    requires FreshInv(parse, s) && Concludes(s, t)
    ensures FreshInv(parse, t)
  {
    forall v | v in Done(s.history) ensures v != s.pending && Surpassed(parse, t, v) {
      UnderOrder(parse, v, s.pending, s.answer.value);
    }
    UnderOrder(parse, s.pending, s.pending, s.pending);
  }

  lemma {:induction false} AnnouncesKeeps(parse: Semver.Parser, s: Story, t: Story)
    requires FreshInv(parse, s) && Announces(parse, s, t)
    ensures FreshInv(parse, t)
  {
    var a := t.pending;
    UnderOrder(parse, a, a, a);
    forall v | v in Done(s.history) ensures Under(parse, v, a) {
      assert Surpassed(parse, s, v) && Ascends(parse, Some(v), s.answer);
      UnderOrder(parse, v, s.tag, a);
      UnderOrder(parse, v, a, a);
    }
  }

  lemma {:induction false} MovesKeep(parse: Semver.Parser, s: Story, t: Story)
    requires FreshInv(parse, s) && Moves(parse, s, t)
    ensures FreshInv(parse, t)
  {
    if Idles(s, t) {
      IdlesKeeps(parse, s, t);
    } else if Drops(s, t) {
      DropsKeeps(parse, s, t);
    } else if Concludes(s, t) {
      ConcludesKeeps(parse, s, t);
    } else {
      AnnouncesKeeps(parse, s, t);
    }
  }

  // ----- what a reconcile does to the story -----

  function Seen(heard: Option<string>, w: World): Story {
    Tell(heard, View(w))
  }

  lemma {:induction false} AbortMoves(parse: Semver.Parser, heard: Option<string>, w: World)
    requires Calm(w) && w.inst.status.au.pending != ""
    ensures Drops(Seen(heard, w), Seen(heard, AbortUpdate(w, BackupFailed).w))
  {
  }

  lemma {:induction false} HealthCheckMoves(parse: Semver.Parser, heard: Option<string>, w: World)
    requires Calm(w) && w.inst.status.au.pending == w.inst.spec.tag != ""
    ensures Moves(parse, Seen(heard, w), Seen(heard, DriveHealthCheck(w).w))
  {
    var t := Seen(heard, DriveHealthCheck(w).w);
    if w.db.sts.Some? && w.db.sts.value.ready > 0 && w.db.sts.value.updated > 0 {
      assert Concludes(Seen(heard, w), t);
    } else {
      assert Silently(w.db.history, t.history);
      assert Idles(Seen(heard, w), t);
    }
  }

  lemma {:induction false} RollbackMoves(parse: Semver.Parser, heard: Option<string>, w: World)
    requires Calm(w) && w.inst.status.au.pending != "" && w.inst.status.au.previous != ""
    requires w.inst.status.au.backupPath == ""
    ensures Concludes(Seen(heard, w), Seen(heard, DriveRollback(w).w))
  {
  }

  lemma {:induction false} AfterPatchMoves(parse: Semver.Parser, heard: Option<string>, w: World)
    requires Calm(w) && w.inst.status.au.pending == w.inst.spec.tag != ""
    ensures Moves(parse, Seen(heard, w), Seen(heard, AfterTagPatch(w, w.inst.status.au.pending).w))
  {
    var w1 := ScaleBackUp(w).w;
    assert Calm(w1) && w1.inst == w.inst && w1.db.history == w.db.history && w1.db.tags == w.db.tags;
    assert Idles(Seen(heard, w), Seen(heard, StartHealthCheck(w1, w.inst.status.au.pending).w));
    assert Concludes(Seen(heard, w), Seen(heard, FinishWithoutHealthCheck(w1, w.inst.status.au.pending).w));
  }

  /** With an update pending the tag plays no part yet. */
  lemma {:induction false} ApplyMoves(parse: Semver.Parser, heard: Option<string>, w: World)
    requires Calm(w) && w.inst.status.au.pending != ""
    ensures Moves(parse, Seen(heard, w), Seen(heard, ApplyUpdate(w).w))
  {
    var w0 := SetAutoUpdate(w, w.inst.status.au.(previous := w.inst.spec.tag, phase := ApplyingUpdate));
    AfterPatchMoves(parse, heard, PatchTag(WriteStatus(w0).w, w.inst.status.au.pending).w);
  }

  lemma {:induction false} BackUpFirstMoves(parse: Semver.Parser, heard: Option<string>, renewed: bool, w: World, i: Inputs)
    requires InBackup(parse, renewed, w)
    ensures Moves(parse, Seen(heard, w), Seen(heard, BackUpFirst(w, i).w))
  {
    BackupKeeps(parse, renewed, w, i);
    var b := DrivePreUpdateBackup(w, i);
    if b.err {
      AbortMoves(parse, heard, b.w);
    } else if b.done {
      RecordKeeps(parse, renewed, b.w);
      assert Seen(heard, RecordBackupPath(b.w)) == Seen(heard, w);
      ApplyMoves(parse, heard, RecordBackupPath(b.w));
    } else {
      assert Idles(Seen(heard, w), Seen(heard, BackUpFirst(w, i).w));
    }
  }

  lemma {:induction false} DriveMoves(parse: Semver.Parser, heard: Option<string>, renewed: bool, w: World, i: Inputs)
    requires Good(parse, renewed, w) && w.inst.status.au.pending != "" && w.inst.status.au.backupPath == ""
    ensures Moves(parse, Seen(heard, w), Seen(heard, DriveUpdateStateMachine(w, i).w))
  {
    var au := w.inst.status.au;
    if au.phase.HealthCheck? {
      HealthCheckMoves(parse, heard, w);
    } else if au.phase.RollingBack? {
      RollbackMoves(parse, heard, w);
    } else if !w.inst.status.phase.Updating? {
      assert Idles(Seen(heard, w), Seen(heard, DriveUpdateStateMachine(w, i).w));
    } else if NeedsBackup(w.inst.spec) {
      BackUpFirstMoves(parse, heard, renewed, w, i);
    } else {
      ApplyMoves(parse, heard, w);
    }
  }

  lemma {:induction false} ConsiderMoves(parse: Semver.Parser, heard: Option<string>, w: World, i: Inputs, version: string)
    requires Calm(w) && i.parse == parse && w.inst.status.au.pending == "" != version
    requires Under(parse, w.inst.spec.tag, version) && Some(version) == heard
    ensures Moves(parse, Seen(heard, w), Seen(heard, ConsiderVersion(w, i, version).w))
  {
    UnderOrder(parse, version, version, version);
    var s, t := Seen(heard, w), Seen(heard, ConsiderVersion(w, i, version).w);
    assert Announces(parse, s, t) || Idles(s, t);
  }

  lemma {:induction false} CheckMoves(parse: Semver.Parser, heard: Option<string>, w: World, i: Inputs)
    requires Calm(w) && i.parse == parse && Sane(parse) && w.inst.status.au.pending == "" && Hears(heard, w.db, i)
    ensures Moves(parse, Seen(heard, w), Seen(heard, CheckForUpdate(w, i).w))
  {
    var s, t := Seen(heard, w), Seen(heard, CheckForUpdate(w, i).w);
    var answer := LatestVersion(w, i);
    if answer.Some? && w.inst.spec.tag != "" && w.inst.spec.tag != "latest"
       && Under(parse, w.inst.spec.tag, answer.value) {
      var au := w.inst.status.au.(lastCheck := Some(w.db.now), latest := answer.value, current := w.inst.spec.tag);
      ConsiderMoves(parse, heard, SetAutoUpdate(w, au), i, answer.value);
      assert t == Seen(heard, ConsiderVersion(SetAutoUpdate(w, au), i, answer.value).w);
    } else {
      assert Idles(s, t);
    }
  }

  lemma {:induction false} WrittenStory(parse: Semver.Parser, heard: Option<string>, w: World, saved: Status, i: Inputs)
    requires Calm(w) && w.db.inst.status == saved
    ensures Tell(heard, WriteIfChanged(w, saved, i).w.db) == Seen(heard, w)
  {
  }

  lemma {:induction false} RestFresh(parse: Semver.Parser, heard: Option<string>, renewed: bool, w: World, saved: Status, i: Inputs)
    requires Settled(parse, renewed, w, saved) && i.parse == parse && Sane(parse)
    requires Consults(w.inst, w.db.now, i) ==> Hears(heard, w.db, i)
    requires FreshInv(parse, Seen(heard, w))
    ensures FreshInv(parse, Tell(heard, ReconcileRest(w, saved, i).w.db))
  {
    ResourcesKeep(parse, renewed, w, saved);
    var w1 := ReconcileResources(w).w;
    assert Seen(heard, w1) == Seen(heard, w);
    if w.inst.spec.suspended {
      WrittenStory(parse, heard, SetPhase(w1, Suspended), saved, i);
    } else {
      var w2 := SetPhase(w1, ObservedPhase(w1, i));
      var r := ReconcileAutoUpdate(w2, i);
      assert Checking(parse, false, w2) && Seen(heard, w2) == Seen(heard, w);
      CheckKeeps(parse, false, w2, i);
      CheckWritesNoStatus(w2, i);
      WrittenStory(parse, heard, r.w, saved, i);
      if Consults(w.inst, w.db.now, i) {
        CheckMoves(parse, heard, w2, i);
        MovesKeep(parse, Seen(heard, w2), Seen(heard, r.w));
      } else {
        assert r.w == w2;
      }
    }
  }

  lemma {:induction false} ProvisionedFresh(parse: Semver.Parser, heard: Option<string>, renewed: bool, w: World, i: Inputs)
    requires Good(parse, renewed, w) && w.db.inst.status == w.inst.status && w.inst.status.au.backupPath == ""
    requires !w.inst.status.phase.Unset? && !w.inst.status.phase.Pending?
    requires i.parse == parse && Sane(parse) && FreshInv(parse, Seen(heard, w))
    requires Consults(w.inst, w.db.now, i) ==> Hears(heard, w.db, i)
    ensures FreshInv(parse, Tell(heard, ReconcileProvisioned(w, i).w.db))
  {
    if w.inst.status.au.pending != "" && !w.inst.spec.suspended {
      DriveKeeps(parse, renewed, w, i);
      DriveMoves(parse, heard, renewed, w, i);
      MovesKeep(parse, Seen(heard, w), Seen(heard, DriveUpdateStateMachine(w, i).w));
    } else {
      RestFresh(parse, heard, renewed, w, w.inst.status, i);
    }
  }

  lemma {:induction false} ResolveMoves(parse: Semver.Parser, heard: Option<string>, w: World, i: Inputs)
    requires Calm(w) && i.parse == parse && w.inst.status.au.pending == ""
    requires IsAutoUpdateEnabled(w.inst.spec) && w.inst.spec.tag == "latest" && i.resolver ==> Hears(heard, w.db, i)
    ensures Idles(Seen(heard, w), Seen(heard, ResolveInitialTag(w, i).w))
  {
  }

  lemma {:induction false} QuietIsSilent(h0: History, h: History)
    requires Quietly(h0, h)
    ensures Silently(h0, h)
  {
    if h != h0 {
      QuietIsSilent(h0, h.past);
    }
  }

  lemma {:induction false} DeleteFresh(parse: Semver.Parser, heard: Option<string>, c: Cluster, i: Inputs)
    requires FreshInv(parse, Tell(heard, c))
    ensures FreshInv(parse, Tell(heard, ReconcileDeleteWithBackup(World(c, c.inst, Smooth), i).w.db))
  {
    var w := World(c, c.inst, Smooth);
    DeleteFramed(c, w, i);
    var end := ReconcileDeleteWithBackup(w, i).w.db;
    QuietIsSilent(c.history, end.history);
    IdlesKeeps(parse, Tell(heard, c), Tell(heard, end));
  }

  /** The reconcile that provisions an instance, resolving its tag first. */
  lemma {:induction false} FirstFresh(parse: Semver.Parser, heard: Option<string>, renewed: bool, c: Cluster, i: Inputs)
    requires Inv(parse, renewed, c) && c.inst.status.au.backupPath == "" && i.parse == parse && Sane(parse)
    requires FreshInv(parse, Tell(heard, c)) && (Asks(c, i) ==> Hears(heard, c, i))
    requires !c.inst.spec.deleting && c.inst.spec.finalizer && c.inst.status.phase.Pending?
    ensures FreshInv(parse, Tell(heard, Reconcile(c, i, Smooth).w.db))
  {
    var w1 := WriteStatus(SetPhase(World(c, c.inst, Smooth), Provisioning)).w;
    var r := ResolveInitialTag(w1, i);
    ResolveKeeps(parse, renewed, w1, i);
    ResolveMoves(parse, heard, w1, i);
    IdlesKeeps(parse, Seen(heard, w1), Seen(heard, r.w));
    if !r.err && !r.requeue.Now? {
      assert r.w == w1;
      ProvisionedFresh(parse, heard, renewed, w1, i);
    }
  }

  lemma {:induction false} ReconcileFresh(parse: Semver.Parser, heard: Option<string>, renewed: bool, c: Cluster, i: Inputs)
    requires Inv(parse, renewed, c) && c.inst.status.au.backupPath == "" && i.parse == parse && Sane(parse)
    requires FreshInv(parse, Tell(heard, c)) && (Asks(c, i) ==> Hears(heard, c, i))
    ensures FreshInv(parse, Tell(heard, Reconcile(c, i, Smooth).w.db))
  {
    var w := World(c, c.inst, Smooth);
    if Gone(c.inst.spec) {
    } else if c.inst.spec.deleting {
      DeleteFresh(parse, heard, c, i);
    } else if !c.inst.spec.finalizer || c.inst.status.phase.Unset? {
      assert Tell(heard, Reconcile(c, i, Smooth).w.db) == Tell(heard, c);
    } else if c.inst.status.phase.Pending? {
      FirstFresh(parse, heard, renewed, c, i);
    } else {
      ProvisionedFresh(parse, heard, renewed, w, i);
    }
  }

  lemma {:induction false} ClimbKeeps(parse: Semver.Parser, s: Story, answer: Option<string>)
    requires FreshInv(parse, s) && Ascends(parse, s.answer, answer)
    ensures FreshInv(parse, s.(answer := answer))
  {
    var t := s.(answer := answer);
    forall v | Ascends(parse, Some(v), s.answer)
      ensures Ascends(parse, Some(v), t.answer)
      ensures Surpassed(parse, s, v) ==> Surpassed(parse, t, v)
    {
      UnderOrder(parse, v, s.answer.value, answer.value);
      UnderOrder(parse, answer.value, v, s.answer.value);
    }
  }

  /** The registry's last answer along a run. */
  function Heard(c: Cluster, events: seq<Event>): Option<string>
    decreases |events|
  {
    if events == [] then None
    else
      var init, e := events[..|events| - 1], events[|events| - 1];
      HeardAfter(Heard(c, init), Run(c, init), e)
  }

  function HeardAfter(heard: Option<string>, c: Cluster, e: Event): Option<string> {
    if e.Reconciled? && Asks(c, e.input) && AnswerAt(c, e.input).Some? then AnswerAt(c, e.input) else heard
  }

  /** The answers the registry gives never decrease along the run; what its list does while nobody
      asks is its own affair. */
  ghost predicate Climbing(parse: Semver.Parser, c: Cluster, events: seq<Event>) {
    forall k :: 0 <= k < |events| ==>
      Ascends(parse, Heard(c, events[..k]), HeardAfter(Heard(c, events[..k]), Run(c, events[..k]), events[k]))
  }

  lemma {:induction false} StepFresh(parse: Semver.Parser, renewed: bool, heard: Option<string>, c: Cluster, e: Event)
    requires Inv(parse, renewed, c) && c.inst.status.au.backupPath == "" && Sane(parse)
    requires ErrorFreeEvent(e) && (e.Reconciled? ==> e.input.parse == parse)
    requires FreshInv(parse, Tell(heard, c)) && Ascends(parse, heard, HeardAfter(heard, c, e))
    ensures FreshInv(parse, Tell(HeardAfter(heard, c, e), Step(c, e)))
  {
    var now := HeardAfter(heard, c, e);
    ClimbKeeps(parse, Tell(heard, c), now);
    if e.Reconciled? {
      ReconcileFresh(parse, now, renewed, c, e.input);
    } else {
      assert Tell(now, Step(c, e)) == Tell(now, c);
    }
  }

  lemma {:induction false} RunFresh(parse: Semver.Parser, c: Cluster, events: seq<Event>)
    requires Admissible(parse, c, events) && Climbing(parse, c, events)
    ensures FreshInv(parse, Tell(Heard(c, events), Run(c, events)))
  {
    if events != [] {
      var k := |events| - 1;
      var init := events[..k];
      forall j | 0 <= j < |init|
        ensures Ascends(parse, Heard(c, init[..j]), HeardAfter(Heard(c, init[..j]), Run(c, init[..j]), init[j]))
      {
        assert init[..j] == events[..j];
      }
      AdmissibleBefore(parse, c, events);
      RunFresh(parse, c, init);
      RunKeeps(parse, c, init);
      StepFresh(parse, Renewed(c, init), Heard(c, init), Run(c, init), events[k]);
    }
  }

  /** No version that was confirmed or rolled back is ever announced again, and none is settled twice. */
  lemma {:induction false} NoVersionReturns(parse: Semver.Parser, c: Cluster, events: seq<Event>)
    requires Admissible(parse, c, events) && Climbing(parse, c, events)
    ensures Fresh(Run(c, events).history)
  {
    RunFresh(parse, c, events);
  }

  function Rollbacks(h: History, version: string): nat {
    match h
    case Start => 0
    case After(past, n) => Rollbacks(past, version) + if n.RolledBack? && n.version == version then 1 else 0
  }

  lemma {:induction false} FreshCounts(h: History, version: string)
    requires Fresh(h)
    ensures Rollbacks(h, version) <= if version in Done(h) then 1 else 0
  {
    match h
    case Start =>
    case After(past, n) => FreshCounts(past, version);
  }

  /** Each version is rolled back at most once over the whole run. */
  lemma {:induction false} RolledBackAtMostOnce(parse: Semver.Parser, c: Cluster, events: seq<Event>, version: string)
    requires Admissible(parse, c, events) && Climbing(parse, c, events)
    ensures Rollbacks(Run(c, events).history, version) <= 1
  {
    RunFresh(parse, c, events);
    FreshCounts(Run(c, events).history, version);
  }

  /** That equal versions have equal tags is needed: a version that failed under one tag is
      announced again as soon as the registry answers with another spelling of it. */
  lemma {:induction false} OtherSpellingReturns(c: Cluster, i: Inputs)
    requires !c.inst.spec.deleting && c.inst.spec.finalizer && !c.inst.spec.suspended && c.inst.status.phase.Running?
    requires c.inst.status.au.pending == "" && c.inst.status.au.rollbacks < MAX_ROLLBACKS
    requires IsAutoUpdateEnabled(c.inst.spec) && i.resolver && i.registryUp && ShouldCheckForUpdate(c.inst, c.now)
    requires c.inst.spec.tag != "" && c.inst.spec.tag != "latest"
    requires var a := Semver.Answer(i.parse, None, c.tags);
             && a.Some? && Under(i.parse, c.inst.spec.tag, a.value)
             && i.parse(c.inst.status.au.failed) == i.parse(a.value) && c.inst.status.au.failed != a.value
    ensures var a := Semver.Answer(i.parse, None, c.tags).value; var end := Reconcile(c, i, Smooth).w.db;
            end.history == After(c.history, Available(a, c.inst.spec.tag)) && end.inst.status.au.pending == a
  {
    var a := Semver.Answer(i.parse, None, c.tags).value;
    UnderOrder(i.parse, c.inst.status.au.failed, c.inst.status.au.failed, a);
    UnderOrder(i.parse, a, a, a);
  }

  /** The run's `k`-th event is a reconcile that gets an answer. */
  predicate Answered(c: Cluster, events: seq<Event>, k: nat)
    requires k < |events|
  {
    && events[k].Reconciled? && Asks(Run(c, events[..k]), events[k].input)
    && AnswerAt(Run(c, events[..k]), events[k].input).Some?
  }

  predicate Extends(tags: seq<string>, more: seq<string>) {
    |tags| <= |more| && more[..|tags|] == tags
  }

  lemma {:induction false} HeardFrom(c: Cluster, events: seq<Event>)
    requires Heard(c, events).Some?
    ensures exists k: nat :: k < |events| && Answered(c, events, k)
              && Heard(c, events) == AnswerAt(Run(c, events[..k]), events[k].input)
  {
    var n := |events| - 1;
    var init := events[..n];
    if Answered(c, events, n) {
      assert Heard(c, events) == AnswerAt(Run(c, events[..n]), events[n].input);
    } else {
      HeardFrom(c, init);
      var k: nat :| k < |init| && Answered(c, init, k) && Heard(c, init) == AnswerAt(Run(c, init[..k]), init[k].input);
      assert init[..k] == events[..k] && init[k] == events[k];
      assert Answered(c, events, k);
    }
  }

  /** A registry whose list, whenever it is asked, extends the lists it was asked about before, climbs. */
  lemma {:induction false} AppendingRegistryClimbs(parse: Semver.Parser, c: Cluster, events: seq<Event>)
    requires Uniform(events, parse)
    requires forall j: nat, k: nat :: j < k < |events| && Answered(c, events, j) && Answered(c, events, k) ==>
      Extends(Run(c, events[..j]).tags, Run(c, events[..k]).tags)
    ensures Climbing(parse, c, events)
  {
    forall k: nat | k < |events|
      ensures Ascends(parse, Heard(c, events[..k]), HeardAfter(Heard(c, events[..k]), Run(c, events[..k]), events[k]))
    {
      var before := events[..k];
      if Heard(c, before).Some? {
        HeardFrom(c, before);
        var j: nat :| j < |before| && Answered(c, before, j) && Heard(c, before) == AnswerAt(Run(c, before[..j]), before[j].input);
        assert before[..j] == events[..j] && before[j] == events[j];
        assert Answered(c, events, j);
        var earlier := Run(c, events[..j]).tags;
        if Answered(c, events, k) {
          var now := Run(c, before).tags;
          assert Extends(earlier, now);
          AnswersAscend(parse, earlier, now);
        } else {
          AnswersAscend(parse, earlier, earlier);
        }
      }
    }
  }

  lemma {:induction false} AnswersAscend(parse: Semver.Parser, tags: seq<string>, more: seq<string>)
    requires Extends(tags, more)
    ensures Ascends(parse, Semver.Answer(parse, None, tags), Semver.Answer(parse, None, more))
  {
    assert more == tags + more[|tags|..];
    if Semver.Answer(parse, None, tags).Some? {
      Semver.AppendOnlyAnswersAscend(parse, None, tags, more[|tags|..]);
    }
  }
}
