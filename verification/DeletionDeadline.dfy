/** Deletion ends in time and for a reason. */
module DeletionDeadline {
  import opened Wrappers
  import opened Rclone
  import opened Cluster
  import opened AutoUpdate
  import opened Deletion
  import opened Lifecycle
  import opened Resilience
  import opened DeletionFrame

  // ----- a reason for letting go -----

  predicate BackupDone(c: Cluster) {
    DeletionBackup in c.jobs && VerdictOf(c.jobs[DeletionBackup].conditions).Completed?
  }

  predicate TimedOut(c: Cluster) {
    && c.inst.status.backingUpSince.Some?
    && c.now - c.inst.status.backingUpSince.value >= BackupTimeout(c.inst.spec.options.backupTimeout)
  }

  /** The circumstances under which the object may go. */
  predicate Justified(c: Cluster) {
    || c.inst.spec.skipBackup
    || !c.inst.spec.options.persistence
    || c.secret.None?
    || TimedOut(c)
    || BackupDone(c)
  }

  /** The finalizer is still there, or there is a reason. */
  predicate Kept(c0: Cluster, w: World) {
    w.db.inst.spec.finalizer || Justified(c0)
  }

  /** What the later steps look at is as it was in `c0`. */
  predicate Looks(c0: Cluster, w: World) {
    w.db.jobs == c0.jobs && w.db.secret == c0.secret && w.db.sts == c0.sts && w.db.pods == c0.pods
  }

  lemma {:induction false} JobKept(c0: Cluster, w: World, i: Inputs, creds: Credentials)
    requires Kept(c0, w) && Looks(c0, w)
    ensures Kept(c0, DeletionJob(w, i, creds).w)
  {
    var w1 := Call(w).w;
    if DeletionBackup !in w1.db.jobs {
      StartKept(c0, w1, i, creds);
    }
  }

  lemma {:induction false} StartKept(c0: Cluster, w: World, i: Inputs, creds: Credentials)
    requires Kept(c0, w)
    ensures Kept(c0, StartDeletionBackup(w, i, creds).w)
  {
  }

  lemma {:induction false} BackUpKept(c0: Cluster, w: World, i: Inputs)
    requires Kept(c0, w) && Looks(c0, w)
    ensures Kept(c0, BackUpForDeletion(w, i).w)
  {
    var (w1, creds) := ReadCredentials(w);
    if creds.Usable? {
      JobKept(c0, MirrorSecret(w1, creds.creds).w, i, creds.creds);
    }
  }

  lemma {:induction false} ScaleDownKept(c0: Cluster, w: World, i: Inputs)
    requires Kept(c0, w) && Looks(c0, w)
    ensures Kept(c0, ScaleDownForDeletion(w, i).w)
  {
    var w1 := Call(w).w;
    BackUpKept(c0, w1, i);
    BackUpKept(c0, Call(w1).w, i);
  }

  /** Whatever calls fail: the finalizer goes only on the skip annotation, without persistence,
      without credentials, after the timeout, or after a completed backup. */
  lemma {:induction false} FinalizerGoesForAReason(c: Cluster, i: Inputs, fate: Fate)
    requires c.inst.spec.deleting && c.inst.spec.finalizer
    ensures Reconcile(c, i, fate).w.db.inst.spec.finalizer || Justified(c)
  {
    var w := Call(World(c, c.inst, fate)).w;
    if Justified(c) {
    } else if c.inst.status.phase.BackingUpPhase? || c.inst.status.phase.Terminating? {
      ScaleDownKept(c, w, i);
    } else {
      var w1 := WriteStatus(SetBackingUpSince(SetPhase(w, BackingUpPhase), Some(c.now))).w;
      ScaleDownKept(c, w1, i);
    }
  }

  // ----- in time -----

  /** A deletion whose clock runs. */
  predicate Ticking(c: Cluster, since: int) {
    && c.inst.spec.deleting && c.inst.spec.finalizer
    && c.inst.status.phase.BackingUpPhase? && c.inst.status.backingUpSince == Some(since)
  }

  function DeadlineOf(c: Cluster, since: int): int {
    since + BackupTimeout(c.inst.spec.options.backupTimeout)
  }

  /** After an error-free reconcile: gone, or still ticking, before the deadline, and back within 30 seconds. */
  predicate GoneOrTicking(c: Cluster, since: int, r: Ret) {
    || !r.w.db.inst.spec.finalizer
    || (&& Ticking(r.w.db, since) && r.w.db.now == c.now && c.now < DeadlineOf(c, since)
        && r.w.db.inst.spec.options == c.inst.spec.options
        && r.requeue.In? && r.requeue.seconds <= 30)
  }

  predicate TickingWorld(c: Cluster, since: int, w: World) {
    && w.fate.Smooth? && Ticking(w.db, since) && w.db.now == c.now && w.inst == w.db.inst
    && w.inst.spec.options == c.inst.spec.options && c.now < DeadlineOf(c, since)
  }

  lemma {:induction false} JobTicks(c: Cluster, since: int, w: World, i: Inputs, creds: Credentials)
    requires TickingWorld(c, since, w)
    ensures GoneOrTicking(c, since, DeletionJob(w, i, creds))
  {
    if DeletionBackup !in w.db.jobs {
      StartTicks(c, since, w, i, creds);
    }
  }

  lemma {:induction false} StartTicks(c: Cluster, since: int, w: World, i: Inputs, creds: Credentials)
    requires TickingWorld(c, since, w)
    ensures GoneOrTicking(c, since, StartDeletionBackup(w, i, creds))
  {
  }

  lemma {:induction false} TerminateEnds(w: World)
    requires w.fate.Smooth?
    ensures !Terminate(w).w.db.inst.spec.finalizer
  {
  }

  lemma {:induction false} BackUpTicks(c: Cluster, since: int, w: World, i: Inputs)
    requires TickingWorld(c, since, w)
    ensures GoneOrTicking(c, since, BackUpForDeletion(w, i))
  {
    var (w1, creds) := ReadCredentials(w);
    assert w1 == w;
    if creds.Usable? {
      JobTicks(c, since, w, i, creds.creds);
    } else if creds.Missing? {
      TerminateEnds(Emit(w1, BackupSkipped));
    }
  }

  lemma {:induction false} ScaleDownTicks(c: Cluster, since: int, w: World, i: Inputs)
    requires TickingWorld(c, since, w)
    ensures GoneOrTicking(c, since, ScaleDownForDeletion(w, i))
  {
    BackUpTicks(c, since, w, i);
  }

  lemma {:induction false} TickingReconcile(c: Cluster, since: int, i: Inputs)
    requires Ticking(c, since)
    ensures GoneOrTicking(c, since, Reconcile(c, i, Smooth))
  {
    if c.now < DeadlineOf(c, since) {
      ScaleDownTicks(c, since, World(c, c.inst, Smooth), i);
    }
  }

  /** The first reconcile of a deletion starts the clock, unless it already ends it. */
  lemma {:induction false} FirstReconcile(c: Cluster, i: Inputs)
    requires c.inst.spec.deleting && c.inst.spec.finalizer && LivePhase(c.inst.status.phase)
    ensures GoneOrTicking(c, c.now, Reconcile(c, i, Smooth))
  {
    if !c.inst.spec.skipBackup && c.inst.spec.options.persistence {
      var w := World(c, c.inst, Smooth);
      var w1 := WriteStatus(SetBackingUpSince(SetPhase(w, BackingUpPhase), Some(c.now))).w;
      ScaleDownTicks(c, c.now, w1, i);
    }
  }

  // ----- punctual deletions -----

  /** Time passes, other things happen, then the controller reconciles. */
  datatype Round = Round(delay: nat, others: seq<Event>, input: Inputs)

  predicate Bystander(e: Event) {
    !e.Reconciled? && !e.TimePasses? && !e.EditOptions?
  }

  function BeforeReconcile(c: Cluster, r: Round): Cluster {
    Run(c.(now := c.now + r.delay), r.others)
  }

  function PlayRound(c: Cluster, r: Round): Ret {
    Reconcile(BeforeReconcile(c, r), r.input, Smooth)
  }

  /** The rounds of a deletion, each no later than the requeue delay asks. */
  ghost predicate Punctual(c: Cluster, wait: Requeue, rounds: seq<Round>)
    decreases |rounds|
  {
    rounds == [] ||
    (&& wait.In? && rounds[0].delay <= wait.seconds
     && (forall k :: 0 <= k < |rounds[0].others| ==> Bystander(rounds[0].others[k]))
     && var r := PlayRound(c, rounds[0]);
        Gone(r.w.db.inst.spec) || Punctual(r.w.db, r.requeue, rounds[1..]))
  }

  function Play(c: Cluster, rounds: seq<Round>): Cluster
    decreases |rounds|
  {
    if rounds == [] || Gone(c.inst.spec) then c
    else Play(PlayRound(c, rounds[0]).w.db, rounds[1..])
  }

  lemma {:induction false} BystandersTick(c: Cluster, since: int, others: seq<Event>)
    requires Ticking(c, since)
    requires forall k :: 0 <= k < |others| ==> Bystander(others[k])
    ensures var end := Run(c, others);
            Ticking(end, since) && end.now == c.now && end.inst.spec.options == c.inst.spec.options
  {
    if others != [] {
      BystandersTick(c, since, others[..|others| - 1]);
      BystanderTicks(Run(c, others[..|others| - 1]), since, others[|others| - 1]);
    }
  }

  lemma {:induction false} BystanderTicks(c: Cluster, since: int, e: Event)
    requires Ticking(c, since) && Bystander(e)
    ensures Ticking(Step(c, e), since) && Step(c, e).now == c.now
    ensures Step(c, e).inst.spec.options == c.inst.spec.options
  {
  }

  /** A punctual deletion is over less than 30 seconds after its timeout: as long as the object
      exists after a reconcile the deadline lies ahead, the next reconcile comes less than 30 seconds
      after it at the latest, and one at or past the deadline removes the finalizer. */
  lemma {:induction false} DeletionEndsInTime(c: Cluster, since: int, wait: Requeue, rounds: seq<Round>, next: Round)
    requires Ticking(c, since) && c.now < DeadlineOf(c, since) && wait.In? && wait.seconds <= 30
    requires Punctual(c, wait, rounds + [next]) && !Gone(Play(c, rounds).inst.spec)
    ensures var last := Play(c, rounds);
            var at := BeforeReconcile(last, next);
            && last.now < DeadlineOf(c, since)
            && at.now < DeadlineOf(c, since) + 30
            && (at.now >= DeadlineOf(c, since) ==> Gone(Play(c, rounds + [next]).inst.spec))
    decreases |rounds|
  {
    var all := rounds + [next];
    RoundTicks(c, since, all[0]);
    if rounds == [] {
      assert all == [next] && all[1..] == [];
      assert Play(c, all) == Play(PlayRound(c, next).w.db, []);
    } else {
      var r := PlayRound(c, rounds[0]);
      assert all[0] == rounds[0] && all[1..] == rounds[1..] + [next];
      assert Play(c, rounds) == Play(r.w.db, rounds[1..]);
      assert Play(c, all) == Play(r.w.db, all[1..]);
      DeletionEndsInTime(r.w.db, since, r.requeue, rounds[1..], next);
    }
  }

  lemma {:induction false} RoundTicks(c: Cluster, since: int, r: Round)
    requires Ticking(c, since)
    requires forall k :: 0 <= k < |r.others| ==> Bystander(r.others[k])
    ensures var at, end := BeforeReconcile(c, r), PlayRound(c, r);
            && at.now == c.now + r.delay && DeadlineOf(at, since) == DeadlineOf(c, since)
            && (Gone(end.w.db.inst.spec)
                || (&& Ticking(end.w.db, since) && at.now < DeadlineOf(c, since) && end.w.db.now == at.now
                    && DeadlineOf(end.w.db, since) == DeadlineOf(c, since)
                    && end.requeue.In? && end.requeue.seconds <= 30))
  {
    BystandersTick(c.(now := c.now + r.delay), since, r.others);
    var at := BeforeReconcile(c, r);
    TickingReconcile(at, since, r.input);
    DeletingStays(at, r.input);
  }

  lemma {:induction false} DeletingStays(c: Cluster, i: Inputs)
    requires c.inst.spec.deleting && c.inst.spec.finalizer
    ensures Reconcile(c, i, Smooth).w.db.inst.spec.deleting
  {
    DeleteFramed(c, World(c, c.inst, Smooth), i);
  }

  /** In every run, whatever failed before, deleting a live instance starts the clock at the first
      error-free reconcile or ends the deletion there and then. */
  lemma {:induction false} DeletionStartsTheClock(c: Cluster, events: seq<Event>, i: Inputs)
    requires Initial(c)
    requires !Run(c, events).inst.spec.deleting && Run(c, events).inst.spec.finalizer
    ensures var now := Step(Run(c, events), RequestDeletion);
            GoneOrTicking(now, now.now, Reconcile(now, i, Smooth))
  {
    RunSound("", c, events);
    FirstReconcile(Step(Run(c, events), RequestDeletion), i);
  }

  // ----- what a stop does to the deadline -----

  /** Terminating without a start time, next to a failed backup Job. */
  predicate Stuck(c: Cluster) {
    && c.inst.spec.deleting && c.inst.spec.finalizer && !c.inst.spec.skipBackup && c.inst.spec.options.persistence
    && c.inst.status.phase.Terminating? && c.inst.status.backingUpSince.None?
    && c.sts.Some? && c.sts.value.replicas == Some(0) && c.pods == 0
    && c.secret.Some? && ParseSecret(c.secret.value).Some?
    && DeletionBackup in c.jobs && VerdictOf(c.jobs[DeletionBackup].conditions).Failed?
  }

  predicate NextSucceeds(fate: Fate) {
    fate.Smooth? || (fate.Next? && fate.ok)
  }

  function Afterwards(fate: Fate): Fate {
    if fate.Next? then fate.rest else fate
  }

  /** Past the deadline, the start time is lost with the object still there exactly if the status
      write succeeds and the removal of the finalizer, the third call, does not: by an error or by a
      stop. */
  lemma {:induction false} DeadlineIsLostExactly(c: Cluster, since: int, i: Inputs, fate: Fate)
    requires Ticking(c, since) && c.now >= DeadlineOf(c, since)
    requires !c.inst.spec.skipBackup && c.inst.spec.options.persistence
    ensures var end := Reconcile(c, i, fate).w.db;
            end.inst.spec.finalizer && end.inst.status.backingUpSince.None? <==>
              && NextSucceeds(fate) && NextSucceeds(Afterwards(fate))
              && !NextSucceeds(Afterwards(Afterwards(fate)))
  {
  }

  /** Such a loss beside a failed backup Job leaves the instance stuck. */
  lemma {:induction false} LostDeadlineIsStuck(c: Cluster, since: int, i: Inputs, fate: Fate)
    requires Ticking(c, since) && c.now >= DeadlineOf(c, since)
    requires Stuck(c.(inst := c.inst.(status := c.inst.status.(phase := Terminating, backingUpSince := None))))
    requires NextSucceeds(fate) && NextSucceeds(Afterwards(fate)) && !NextSucceeds(Afterwards(Afterwards(fate)))
    ensures Stuck(Reconcile(c, i, fate).w.db)
  {
  }

  /** From there on no amount of time or reconciling ends the deletion. */
  lemma {:induction false} StuckForever(c: Cluster, events: seq<Event>)
    requires Stuck(c)
    requires forall k :: 0 <= k < |events| ==> events[k].Reconciled? || events[k].TimePasses?
    ensures Stuck(Run(c, events))
  {
    if events != [] {
      var init, e := events[..|events| - 1], events[|events| - 1];
      StuckForever(c, init);
      if e.Reconciled? {
        StuckReconcile(Run(c, init), e.input, e.fate);
      }
    }
  }

  lemma {:induction false} StuckReconcile(c: Cluster, i: Inputs, fate: Fate)
    requires Stuck(c)
    ensures Stuck(Reconcile(c, i, fate).w.db)
  {
    var w := Call(World(c, c.inst, fate)).w;
    var w1 := Call(w).w;
    var w2 := Call(w1).w;
    var (w3, creds) := ReadCredentials(w2);
    assert w3.db == c && w3.inst == c.inst;
    if creds.Usable? {
      var w4 := MirrorSecret(w3, creds.creds).w;
      assert w4.db == c && w4.inst == c.inst;
      assert Stuck(DeletionJob(w4, i, creds.creds).w.db);
    }
  }
}
