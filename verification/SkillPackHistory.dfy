/** Skill-pack synchronisation over whole histories: interruptions at any command, changing revisions,
    user edits in between. */
module SkillPackHistory {
  import opened Wrappers
  import opened SkillPackSync

  // ----- interruptions -----

  /** A run is cut off after `done` commands; the next one may have written a torn file. */
  datatype Cut = Cut(done: nat, torn: Option<string>)

  function Interrupted(v: Volume, r: Revision, cut: Cut): Volume {
    var script := Script(v, r);
    if cut.done >= |script| then ExecAll(v, script)
    else
      var w := ExecAll(v, script[..cut.done]);
      if cut.torn.None? then w
      else match script[cut.done]
        case Stage(_) => w.(staging := cut.torn)
        case Copy(p, _) => Exec(w, Copy(p, cut.torn.value))
        case _ => w
  }

  /** Commands before the last only write staging, outdated files and declared ones. */
  ghost predicate Harmless(gone: set<string>, put: set<string>, c: Command) {
    match c
    case Remove(f) => f in gone
    case MakeDirs(d) => exists p :: p in put && Above(d) + {d} == Above(p)
    case Copy(p, _) => p in put
    case Promote => false
    case Drop => false
    case _ => true
  }

  ghost predicate AllHarmless(gone: set<string>, put: set<string>, cs: seq<Command>) {
    forall i :: 0 <= i < |cs| ==> Harmless(gone, put, cs[i])
  }

  lemma {:induction false} ChainIsHarmless(gone: set<string>, put: set<string>, d: string)
    ensures AllHarmless(gone, put, Chain(d))
    decreases |d|
  {
    if !Top(d) && LastSlash(d) >= 0 {
      ChainIsHarmless(gone, put, Dirname(d));
    }
  }

  lemma {:induction false} CleanupIsHarmless(put: set<string>, lines: seq<string>, staging: string)
    ensures AllHarmless(Dropped(lines, Lines(staging)), put, Cleanup(lines, staging))
  {
    if lines != [] {
      var init, f := lines[..|lines| - 1], lines[|lines| - 1];
      assert lines == init + [f];
      CleanupIsHarmless(put, init, staging);
      var gone := Dropped(lines, Lines(staging));
      assert Dropped(init, Lines(staging)) <= gone;
      HarmlessMore(Dropped(init, Lines(staging)), gone, put, Cleanup(init, staging));
      ChainIsHarmless(gone, put, Dirname(f));
    }
  }

  lemma HarmlessMore(gone: set<string>, more: set<string>, put: set<string>, cs: seq<Command>)
    requires AllHarmless(gone, put, cs) && gone <= more
    ensures AllHarmless(more, put, cs)
  {
    forall i | 0 <= i < |cs| ensures Harmless(more, put, cs[i]) {
      assert Harmless(gone, put, cs[i]);
    }
  }

  lemma {:induction false} CopiesAreHarmless(gone: set<string>, put: set<string>, r: Revision)
    requires forall i :: 0 <= i < |r| ==> r[i].path in put
    ensures AllHarmless(gone, put, Copies(r))
  {
    if r != [] {
      var p := r[|r| - 1].path;
      CopiesAreHarmless(gone, put, r[..|r| - 1]);
      assert !Top(Dirname(p)) ==> Above(Dirname(p)) + {Dirname(p)} == Above(p);
      assert AllHarmless(gone, put, Put(r[|r| - 1]));
    }
  }

  function PathSet(r: Revision): set<string> {
    set p | p in Paths(r)
  }

  lemma {:induction false} BodyIsHarmless(declared: set<string>, v: Volume, r: Revision)
    requires From(declared, r)
    ensures AllHarmless(Outdated(v, r), PathSet(r), Body(v, r))
  {
    var text := Print(Paths(r));
    var cleanup := if v.manifest.Some? then Cleanup(Lines(v.manifest.value), text) else [];
    PathsAreLines(declared, r);
    if v.manifest.Some? {
      CleanupIsHarmless(PathSet(r), Lines(v.manifest.value), text);
    }
    HarmlessConcat(Outdated(v, r), PathSet(r), [Stage(text)], cleanup);
    forall i | 0 <= i < |r| ensures r[i].path in PathSet(r) {
      assert Paths(r)[i] == r[i].path;
    }
    CopiesAreHarmless(Outdated(v, r), PathSet(r), r);
    HarmlessConcat(Outdated(v, r), PathSet(r), Prepare(v.manifest, text), Copies(r));
  }

  lemma HarmlessConcat(gone: set<string>, put: set<string>, a: seq<Command>, b: seq<Command>)
    requires AllHarmless(gone, put, a) && AllHarmless(gone, put, b)
    ensures AllHarmless(gone, put, a + b)
  {
  }

  /** The two volumes hold the same outside `touched`. */
  predicate SameOutside(touched: set<string>, a: map<string, string>, b: map<string, string>) {
    a - touched == b - touched
  }

  lemma {:induction false} StepHarmless(declared: set<string>, gone: set<string>, put: set<string>, v: Volume, c: Command)
    requires Flat(declared) && Room(declared, v) && put <= declared && Harmless(gone, put, c)
    ensures var w := Exec(v, c);
            Room(declared, w) && w.manifest == v.manifest && SameOutside(gone + put, v.files, w.files)
  {
    if c.MakeDirs? {
      var p :| p in put && Above(c.dir) + {c.dir} == Above(p);
    }
  }

  lemma {:induction false} PrefixHarmless(declared: set<string>, gone: set<string>, put: set<string>, v: Volume, cs: seq<Command>)
    requires Flat(declared) && Room(declared, v) && put <= declared && AllHarmless(gone, put, cs)
    ensures var w := ExecAll(v, cs);
            Room(declared, w) && w.manifest == v.manifest && SameOutside(gone + put, v.files, w.files)
  {
    if cs != [] {
      PrefixHarmless(declared, gone, put, v, cs[..|cs| - 1]);
      StepHarmless(declared, gone, put, ExecAll(v, cs[..|cs| - 1]), cs[|cs| - 1]);
    }
  }

  /** A run that is cut off leaves the old manifest in place. */
  lemma {:induction false} CutKeepsManifest(declared: set<string>, v: Volume, r: Revision, cut: Cut)
    requires Flat(declared) && Room(declared, v) && From(declared, r) && cut.done < |Script(v, r)|
    ensures Interrupted(v, r, cut).manifest == v.manifest
  {
    var prefix := Script(v, r)[..cut.done];
    assert prefix == Body(v, r)[..cut.done];
    BodyIsHarmless(declared, v, r);
    PathsDeclared(declared, r);
    PrefixHarmless(declared, Outdated(v, r), PathSet(r), v, prefix);
  }

  /** Until the very end, an interrupted run has touched only outdated and declared files, and the old
      manifest is still in place. */
  ghost predicate Midway(declared: set<string>, v: Volume, r: Revision, w: Volume) {
    && Room(declared, w)
    && (w == Sync(v, r) ||
        (w.manifest == v.manifest && (r != [] || v.manifest.Some?) && SameOutside(Outdated(v, r) + PathSet(r), v.files, w.files)))
  }

  lemma {:induction false} InterruptedIsMidway(declared: set<string>, v: Volume, r: Revision, cut: Cut)
    requires Flat(declared) && Room(declared, v) && From(declared, r)
    ensures Midway(declared, v, r, Interrupted(v, r, cut))
  {
    var script := Script(v, r);
    SyncIsExact(declared, v, r);
    if cut.done < |script| {
      var prefix := script[..cut.done];
      assert prefix == Body(v, r)[..cut.done];
      BodyIsHarmless(declared, v, r);
      PathsDeclared(declared, r);
      PrefixHarmless(declared, Outdated(v, r), PathSet(r), v, prefix);
      if cut.torn.Some? && script[cut.done].Copy? {
        assert script[cut.done] == Body(v, r)[cut.done];
        TornHarmless(declared, v, r, ExecAll(v, prefix), script[cut.done].path, cut.torn.value);
      }
    }
  }

  lemma {:induction false} TornHarmless(declared: set<string>, v: Volume, r: Revision, w: Volume, p: string, content: string)
    requires Flat(declared) && From(declared, r) && p in PathSet(r)
    requires Room(declared, w) && w.manifest == v.manifest && SameOutside(Outdated(v, r) + PathSet(r), v.files, w.files)
    ensures var x := Exec(w, Copy(p, content));
            Room(declared, x) && x.manifest == v.manifest && SameOutside(Outdated(v, r) + PathSet(r), v.files, x.files)
  {
    PathsDeclared(declared, r);
    StepHarmless(declared, Outdated(v, r), PathSet(r), w, Copy(p, content));
  }

  lemma PathsDeclared(declared: set<string>, r: Revision)
    requires From(declared, r)
    ensures PathSet(r) <= declared && Declared(r).Keys == PathSet(r)
  {
    forall p | p in PathSet(r) ensures p in declared {
      var i :| 0 <= i < |r| && Paths(r)[i] == p;
      assert r[i].path in declared;
    }
    DeclaredKeys(r);
  }

  lemma {:induction false} DeclaredKeys(r: Revision)
    ensures Declared(r).Keys == PathSet(r)
  {
    if r != [] {
      DeclaredKeys(r[..|r| - 1]);
      assert Paths(r) == Paths(r[..|r| - 1]) + [r[|r| - 1].path];
    }
  }

  /** The same but for directories. */
  predicate Same(v: Volume, w: Volume) {
    v.files == w.files && v.manifest == w.manifest && v.staging == w.staging
  }

  /** Stopping at any command and running the same revision again gives the same files and manifest. */
  lemma {:induction false} RestartConverges(declared: set<string>, v: Volume, r: Revision, cut: Cut)
    requires Flat(declared) && Room(declared, v) && From(declared, r)
    ensures Same(Sync(Interrupted(v, r, cut), r), Sync(v, r)) && Room(declared, Interrupted(v, r, cut))
  {
    var w := Interrupted(v, r, cut);
    InterruptedIsMidway(declared, v, r, cut);
    MidwayConverges(declared, v, r, w);
  }

  lemma {:induction false} MidwayConverges(declared: set<string>, v: Volume, r: Revision, w: Volume)
    requires Flat(declared) && Room(declared, v) && From(declared, r) && Midway(declared, v, r, w)
    ensures Same(Sync(w, r), Sync(v, r))
  {
    SyncIsExact(declared, v, r);
    SyncIsExact(declared, w, r);
    PathsDeclared(declared, r);
    ManifestOf(v, r);
    ManifestOf(w, r);
    if w == Sync(v, r) {
      SyncAgain(declared, v, r);
    } else {
      SameResult(v.files, w.files, Outdated(v, r), Declared(r));
    }
  }

  lemma {:induction false} ManifestOf(v: Volume, r: Revision)
    ensures r != [] ==> Sync(v, r).manifest == Some(Print(Paths(r)))
    ensures r == [] ==> Sync(v, r).manifest.None?
  {
    if r == [] && v.manifest.None? {
      SyncIdle(v);
    } else {
      SyncByBody(v, r);
      StagingOf(v, r);
    }
  }

  lemma {:induction false} StagingOf(v: Volume, r: Revision)
    ensures ExecAll(v, Body(v, r)).staging == Some(Print(Paths(r)))
  {
    var text := Print(Paths(r));
    PrepareEffect(v, text);
    ExecConcat(v, Prepare(v.manifest, text), Copies(r));
    CopiesKeepStaging(ExecAll(v, Prepare(v.manifest, text)), r);
  }

  lemma {:induction false} CopiesKeepStaging(v: Volume, r: Revision)
    ensures ExecAll(v, Copies(r)).staging == v.staging
  {
    if r != [] {
      var init, s := r[..|r| - 1], r[|r| - 1];
      CopiesKeepStaging(v, init);
      var w := ExecAll(v, Copies(init));
      ExecConcat(v, Copies(init), Put(s));
      if Top(Dirname(s.path)) {
        assert Put(s) == [Copy(s.path, s.content)];
        ExecOne(w, Copy(s.path, s.content));
      } else {
        ExecConcat(w, [MakeDirs(Dirname(s.path))], [Copy(s.path, s.content)]);
        ExecOne(w, MakeDirs(Dirname(s.path)));
        ExecOne(Exec(w, MakeDirs(Dirname(s.path))), Copy(s.path, s.content));
      }
    }
  }

  lemma {:induction false} SyncAgain(declared: set<string>, v: Volume, r: Revision)
    requires Flat(declared) && Room(declared, v) && From(declared, r)
    ensures Same(Sync(Sync(v, r), r), Sync(v, r))
  {
    var w := Sync(v, r);
    SyncIsExact(declared, v, r);
    ManifestOf(v, r);
    if r == [] {
      SyncIdle(w);
    } else {
      SyncIsExact(declared, w, r);
      ManifestOf(w, r);
      PathsAreLines(declared, r);
      NothingOutdated(v.files - Outdated(v, r), w, r);
    }
  }

  lemma NothingOutdated(kept: map<string, string>, w: Volume, r: Revision)
    requires w.files == kept + Declared(r) && w.manifest.Some? && Lines(w.manifest.value) == Paths(r)
    ensures (w.files - Outdated(w, r)) + Declared(r) == w.files
  {
    assert Outdated(w, r) == {};
  }

  lemma SameResult(a: map<string, string>, b: map<string, string>, gone: set<string>, put: map<string, string>)
    requires SameOutside(gone + put.Keys, a, b)
    ensures (a - gone) + put == (b - gone) + put
  {
    forall p | p !in gone && p !in put ensures (p in a <==> p in b) && (p in a ==> a[p] == b[p]) {
      assert p in a <==> p in a - (gone + put.Keys);
      assert p in b <==> p in b - (gone + put.Keys);
      assert p in a ==> (a - (gone + put.Keys))[p] == (b - (gone + put.Keys))[p];
    }
  }

  function Attempts(v: Volume, r: Revision, cuts: seq<Cut>): Volume {
    if cuts == [] then v else Interrupted(Attempts(v, r, cuts[..|cuts| - 1]), r, cuts[|cuts| - 1])
  }

  /** However often it is interrupted. */
  lemma {:induction false} RestartsConverge(declared: set<string>, v: Volume, r: Revision, cuts: seq<Cut>)
    requires Flat(declared) && Room(declared, v) && From(declared, r)
    ensures Same(Sync(Attempts(v, r, cuts), r), Sync(v, r)) && Room(declared, Attempts(v, r, cuts))
  {
    if cuts != [] {
      RestartsConverge(declared, v, r, cuts[..|cuts| - 1]);
      RestartConverges(declared, Attempts(v, r, cuts[..|cuts| - 1]), r, cuts[|cuts| - 1]);
    }
  }

  // ----- histories -----

  datatype Event =
    | Synchronised(revision: Revision)
    | Stopped(revision: Revision, cut: Cut)
    | Writes(path: string, content: string)
    | Deletes(path: string)
    | MakesDir(dir: string)
    | RemovesDir(dir: string)

  function Step(v: Volume, e: Event): Volume {
    match e
    case Synchronised(r) => Sync(v, r)
    case Stopped(r, cut) => Interrupted(v, r, cut)
    case Writes(p, content) => v.(files := v.files[p := content])
    case Deletes(p) => v.(files := v.files - {p})
    case MakesDir(d) => v.(dirs := v.dirs + {d})
    case RemovesDir(d) => v.(dirs := v.dirs - {d})
  }

  function Run(v: Volume, events: seq<Event>): Volume {
    if events == [] then v else Step(Run(v, events[..|events| - 1]), events[|events| - 1])
  }

  /** What the user's own edits alone would have made of the files. */
  function Edited(files: map<string, string>, events: seq<Event>): map<string, string> {
    if events == [] then files
    else EditedBy(Edited(files, events[..|events| - 1]), events[|events| - 1])
  }

  function EditedBy(files: map<string, string>, e: Event): map<string, string> {
    if e.Writes? then files[e.path := e.content] else if e.Deletes? then files - {e.path} else files
  }

  /** The paths any revision of the history declares, complete or not. */
  function Ever(events: seq<Event>): set<string> {
    if events == [] then {} else Ever(events[..|events| - 1]) + DeclaredBy(events[|events| - 1])
  }

  function DeclaredBy(e: Event): set<string> {
    if e.Synchronised? || e.Stopped? then PathSet(e.revision) else {}
  }

  /** Revisions stay within `declared`, and the user puts no file where a pack needs a directory and no
      directory where it needs a file. */
  ghost predicate Admissible(declared: set<string>, e: Event) {
    match e
    case Synchronised(r) => From(declared, r)
    case Stopped(r, _) => From(declared, r)
    case Writes(p, _) => forall q :: q in declared ==> p !in Above(q)
    case MakesDir(d) => d !in declared
    case _ => true
  }

  ghost predicate Tracked(declared: set<string>, v: Volume, ever: set<string>, user: map<string, string>) {
    && Room(declared, v) && ever <= declared && SameOutside(ever, v.files, user)
    && (v.manifest.Some? ==> forall f :: f in Lines(v.manifest.value) ==> f in ever)
  }

  lemma SameOutsideMore(a: map<string, string>, b: map<string, string>, touched: set<string>, more: set<string>)
    requires SameOutside(touched, a, b) && touched <= more
    ensures SameOutside(more, a, b)
  {
    assert a - more == (a - touched) - more;
    assert b - more == (b - touched) - more;
  }

  lemma OutdatedWasDeclared(declared: set<string>, v: Volume, r: Revision, ever: set<string>, user: map<string, string>)
    requires Tracked(declared, v, ever, user)
    ensures Outdated(v, r) <= ever
  {
  }

  lemma {:induction false} SyncTracked(declared: set<string>, v: Volume, r: Revision, ever: set<string>, user: map<string, string>)
    requires Flat(declared) && From(declared, r) && Tracked(declared, v, ever, user)
    ensures Tracked(declared, Sync(v, r), ever + PathSet(r), user)
  {
    SyncIsExact(declared, v, r);
    PathsDeclared(declared, r);
    OutdatedWasDeclared(declared, v, r, ever, user);
    var more := ever + PathSet(r);
    SameOutsideMore(v.files, user, ever, more);
    OnlyTouches(v.files, Outdated(v, r), Declared(r), more);
  }

  lemma OnlyTouches(a: map<string, string>, gone: set<string>, put: map<string, string>, touched: set<string>)
    requires gone <= touched && put.Keys <= touched
    ensures SameOutside(touched, (a - gone) + put, a)
  {
  }

  lemma {:induction false} StopTracked(declared: set<string>, v: Volume, r: Revision, cut: Cut, ever: set<string>, user: map<string, string>)
    requires Flat(declared) && From(declared, r) && Tracked(declared, v, ever, user)
    ensures Tracked(declared, Interrupted(v, r, cut), ever + PathSet(r), user)
  {
    var w := Interrupted(v, r, cut);
    InterruptedIsMidway(declared, v, r, cut);
    if w == Sync(v, r) {
      SyncTracked(declared, v, r, ever, user);
    } else {
      var more := ever + PathSet(r);
      PathsDeclared(declared, r);
      OutdatedWasDeclared(declared, v, r, ever, user);
      SameOutsideMore(v.files, user, ever, more);
      SameOutsideMore(v.files, w.files, Outdated(v, r) + PathSet(r), more);
    }
  }

  lemma {:induction false} EditTracked(declared: set<string>, v: Volume, p: string, content: string, ever: set<string>, user: map<string, string>)
    requires Tracked(declared, v, ever, user)
    ensures SameOutside(ever, v.files - {p}, user - {p})
    ensures SameOutside(ever, v.files[p := content], user[p := content])
  {
    var a, b := v.files, user;
    forall q | q !in ever ensures (q in a <==> q in b) && (q in a ==> a[q] == b[q]) {
      assert q in a <==> q in a - ever;
      assert q in b <==> q in b - ever;
      assert q in a ==> (a - ever)[q] == (b - ever)[q];
    }
  }

  lemma {:induction false} RunTracked(declared: set<string>, v: Volume, events: seq<Event>)
    requires Flat(declared) && Room(declared, v) && v.manifest.None?
    requires forall i :: 0 <= i < |events| ==> Admissible(declared, events[i])
    ensures Tracked(declared, Run(v, events), Ever(events), Edited(v.files, events))
  {
    if events != [] {
      var init, e := events[..|events| - 1], events[|events| - 1];
      RunTracked(declared, v, init);
      assert Admissible(declared, e);
      StepTracked(declared, Run(v, init), e, Ever(init), Edited(v.files, init));
    }
  }

  lemma {:induction false} StepTracked(declared: set<string>, v: Volume, e: Event, ever: set<string>, user: map<string, string>)
    requires Flat(declared) && Admissible(declared, e) && Tracked(declared, v, ever, user)
    ensures Tracked(declared, Step(v, e), ever + DeclaredBy(e), EditedBy(user, e))
  {
    if e.Synchronised? {
      SyncTracked(declared, v, e.revision, ever, user);
    } else if e.Stopped? {
      StopTracked(declared, v, e.revision, e.cut, ever, user);
    } else if e.Writes? {
      EditTracked(declared, v, e.path, e.content, ever, user);
    } else if e.Deletes? {
      EditTracked(declared, v, e.path, "", ever, user);
    }
    assert !e.Synchronised? && !e.Stopped? ==> ever + DeclaredBy(e) == ever;
  }

  /** The last revision of the history that was synchronised to the end, [] before the first. */
  function Last(v: Volume, events: seq<Event>): Revision
    decreases |events|
  {
    if events == [] then []
    else
      var init, e := events[..|events| - 1], events[|events| - 1];
      if e.Synchronised? || (e.Stopped? && e.cut.done >= |Script(Run(v, init), e.revision)|) then e.revision
      else Last(v, init)
  }

  /** The manifest on the volume is that of the last completed revision. */
  lemma {:induction false} ManifestIsLast(declared: set<string>, v: Volume, events: seq<Event>)
    requires Flat(declared) && Room(declared, v) && v.manifest.None?
    requires forall i :: 0 <= i < |events| ==> Admissible(declared, events[i])
    ensures From(declared, Last(v, events))
    ensures Run(v, events).manifest == if Last(v, events) == [] then None else Some(Print(Paths(Last(v, events))))
  {
    if events != [] {
      var init, e := events[..|events| - 1], events[|events| - 1];
      ManifestIsLast(declared, v, init);
      RunTracked(declared, v, init);
      assert Admissible(declared, e);
      StepManifest(declared, Run(v, init), e);
    }
  }

  lemma {:induction false} StepManifest(declared: set<string>, v: Volume, e: Event)
    requires Flat(declared) && Room(declared, v) && Admissible(declared, e)
    ensures Step(v, e).manifest ==
            if e.Synchronised? || (e.Stopped? && e.cut.done >= |Script(v, e.revision)|)
            then (if e.revision == [] then None else Some(Print(Paths(e.revision))))
            else v.manifest
  {
    if e.Synchronised? || e.Stopped? {
      ManifestOf(v, e.revision);
      if e.Stopped? && e.cut.done < |Script(v, e.revision)| {
        CutKeepsManifest(declared, v, e.revision, e.cut);
      }
    }
  }

  /** After any history that ends in a complete sync: the manifest lists exactly the last revision's
      paths, each holds its declared content, whatever the revision completed before it declared and
      it does not is gone, and a path no revision ever declared holds what the user put there. */
  lemma {:induction false} HistoryIsExact(declared: set<string>, v: Volume, events: seq<Event>, r: Revision)
    requires Flat(declared) && Room(declared, v) && v.manifest.None? && From(declared, r)
    requires forall p :: p in declared ==> Inside(p)
    requires forall i :: 0 <= i < |events| ==> Admissible(declared, events[i])
    ensures var after := Sync(Run(v, events), r);
            && (after.manifest.Some? <==> r != []) && (r != [] ==> Lines(after.manifest.value) == Paths(r))
            && (forall p :: p in Declared(r) ==> p in after.files && after.files[p] == Declared(r)[p])
            && (forall p :: p in Paths(Last(v, events)) && p !in Paths(r) ==> p !in after.files)
            && SameOutside(Ever(events) + PathSet(r), after.files, Edited(v.files, events))
  {
    var before := Run(v, events);
    RunTracked(declared, v, events);
    SyncIsExact(declared, before, r);
    SyncTracked(declared, before, r, Ever(events), Edited(v.files, events));
    DeclaredKeys(r);
    ManifestIsLast(declared, v, events);
    DroppedAreGone(declared, before, Last(v, events), r, Sync(before, r));
  }

  lemma {:induction false} DroppedAreGone(declared: set<string>, v: Volume, last: Revision, r: Revision, w: Volume)
    requires From(declared, last) && (forall p :: p in declared ==> Inside(p))
    requires v.manifest == if last == [] then None else Some(Print(Paths(last)))
    requires Synced(v, r, w)
    ensures forall p :: p in Paths(last) && p !in Paths(r) ==> p !in w.files
  {
    PathsAreLines(declared, last);
    PathsDeclared(declared, last);
    DeclaredKeys(r);
    forall p | p in Paths(last) && p !in Paths(r) ensures p !in w.files {
      assert p in PathSet(last);
      assert p in Outdated(v, r);
    }
  }

  /** A revision that was interrupted and then given up leaves its new files behind: they are in no
      manifest, so no later sync removes them. */
  lemma {:induction false} AbandonedRevisionLeavesFiles(declared: set<string>, v: Volume, a: Revision, b: Revision, p: string)
    requires Flat(declared) && Room(declared, v) && From(declared, a) && From(declared, b) && a != []
    requires p in Declared(a) && p !in Paths(b)
    requires v.manifest.Some? ==> p !in Lines(v.manifest.value)
    ensures var w := Sync(Interrupted(v, a, Cut(|Body(v, a)|, None)), b);
            p in w.files && (w.manifest.Some? ==> p !in Lines(w.manifest.value))
  {
    var mid := ExecAll(v, Body(v, a));
    assert Script(v, a)[..|Body(v, a)|] == Body(v, a);
    assert Interrupted(v, a, Cut(|Body(v, a)|, None)) == mid;
    BodyEffect(declared, v, a);
    SyncIsExact(declared, mid, b);
  }

  // ----- what cleanup may touch -----

  /** A removal is of a relative path without ".." in it. */
  predicate StaysInside(c: Command) {
    c.Remove? ==>
      && c.file != "" && c.file[0] != '/'
      && forall i :: 0 <= i < |c.file| - 1 ==> !(c.file[i] == '.' && c.file[i + 1] == '.')
  }

  /** Whatever text the manifest holds, only entries inside the workspace are removed. */
  lemma {:induction false} CleanupStaysInside(lines: seq<string>, staging: string)
    ensures forall i :: 0 <= i < |Cleanup(lines, staging)| ==> StaysInside(Cleanup(lines, staging)[i])
  {
    CleanupIsHarmless({}, lines, staging);
    var cs := Cleanup(lines, staging);
    forall i | 0 <= i < |cs| ensures StaysInside(cs[i]) {
      assert Harmless(Dropped(lines, Lines(staging)), {}, cs[i]);
    }
  }

  // ----- directories -----

  /** A volume that holds one pack file, two directories down, and nothing else. */
  predicate TwoDown(v: Volume, f: string) {
    var b := Dirname(f);
    var a := Dirname(b);
    && v.manifest.Some? && Lines(v.manifest.value) == [f] && Inside(f)
    && v.files.Keys <= {f} && !Top(b) && !Top(a) && LastSlash(a) < 0
  }

  /** Directories are the one thing a restart does not converge on: stopped between two rmdirs, the
      next run finds the lower directory gone, takes that for a failure and leaves the upper one. */
  lemma {:induction false} RestartLeavesDirectory(v: Volume, f: string)
    requires TwoDown(v, f) && v.dirs == {Dirname(f), Dirname(Dirname(f))}
    ensures Sync(v, []).dirs == {}
    ensures Sync(Interrupted(v, [], Cut(3, None)), []).dirs == {Dirname(Dirname(f))}
  {
    FirstRun(v, f);
    SecondRun(Interrupted(v, [], Cut(3, None)), f);
  }

  lemma {:induction false} FirstRun(v: Volume, f: string)
    requires TwoDown(v, f) && v.dirs == {Dirname(f), Dirname(Dirname(f))}
    ensures Sync(v, []).dirs == {}
    ensures var w := Interrupted(v, [], Cut(3, None));
            TwoDown(w, f) && w.files == map[] && w.dirs == {Dirname(Dirname(f))} && Dirname(f) !in w.dirs
  {
    TwoDownRun(v, f);
    FirstPruning(Exec(Exec(v, Stage("")), Remove(f)), f);
  }

  lemma {:induction false} SecondRun(w: Volume, f: string)
    requires TwoDown(w, f) && w.files == map[] && Dirname(f) !in w.dirs
    ensures Sync(w, []).dirs == w.dirs
  {
    TwoDownRun(w, f);
    SecondPruning(w, f);
  }

  lemma {:induction false} FirstPruning(v: Volume, f: string)
    requires v.files == map[] && v.pruning && v.dirs == {Dirname(f), Dirname(Dirname(f))}
    requires !Top(Dirname(f)) && !Top(Dirname(Dirname(f))) && LastSlash(Dirname(Dirname(f))) < 0
    ensures var w := Exec(v, Rmdir(Dirname(f)));
            && w.dirs == {Dirname(Dirname(f))} && w.files == map[] && w.manifest == v.manifest && Dirname(f) !in w.dirs
            && Exec(w, Rmdir(Dirname(Dirname(f)))).dirs == {}
  {
    var b := Dirname(f);
    var a := Dirname(b);
    Shorter(f);
    Shorter(b);
    assert Dirname(a) == ".";
    assert EmptyDir(v, b);
    assert EmptyDir(Exec(v, Rmdir(b)), a);
  }

  lemma {:induction false} SecondPruning(v: Volume, f: string)
    requires v.files == map[] && Dirname(f) !in v.dirs
    ensures var w := Exec(Exec(Exec(v, Stage("")), Remove(f)), Rmdir(Dirname(f)));
            w.dirs == v.dirs && !w.pruning
  {
  }

  lemma Shorter(p: string)
    requires !Top(Dirname(p))
    ensures |Dirname(p)| < |p|
  {
  }

  lemma {:induction false} TwoDownRun(v: Volume, f: string)
    requires TwoDown(v, f)
    ensures var v3 := Exec(Exec(Exec(v, Stage("")), Remove(f)), Rmdir(Dirname(f)));
            && Interrupted(v, [], Cut(3, None)) == v3
            && Sync(v, []) == Exec(Exec(v3, Rmdir(Dirname(Dirname(f)))), Drop)
  {
    TwoDownScript(v, f);
    var script := Script(v, []);
    Unfold(v, script);
    Unfold3(v, script[..3]);
  }

  lemma {:induction false} TwoDownScript(v: Volume, f: string)
    requires TwoDown(v, f)
    ensures Script(v, []) == [Stage(""), Remove(f), Rmdir(Dirname(f)), Rmdir(Dirname(Dirname(f))), Drop]
  {
    var b := Dirname(f);
    var a := Dirname(b);
    assert Chain(b) == [Rmdir(b), Rmdir(a)];
    assert Clean(f, "") == [Remove(f), Rmdir(b), Rmdir(a)];
    assert [f][..0] == [] && Cleanup([], "") == [];
    assert Cleanup([f], "") == Clean(f, "");
  }

  lemma Unfold3(v: Volume, cs: seq<Command>)
    requires |cs| == 3
    ensures ExecAll(v, cs) == Exec(Exec(Exec(v, cs[0]), cs[1]), cs[2])
  {
    assert cs == [cs[0]] + [cs[1]] + [cs[2]];
    ExecConcat(v, [cs[0]] + [cs[1]], [cs[2]]);
    ExecConcat(v, [cs[0]], [cs[1]]);
    ExecOne(v, cs[0]);
    ExecOne(Exec(v, cs[0]), cs[1]);
    ExecOne(Exec(Exec(v, cs[0]), cs[1]), cs[2]);
  }

  lemma Unfold(v: Volume, cs: seq<Command>)
    requires |cs| == 5
    ensures ExecAll(v, cs) == Exec(Exec(Exec(Exec(Exec(v, cs[0]), cs[1]), cs[2]), cs[3]), cs[4])
  {
    assert cs == cs[..3] + [cs[3]] + [cs[4]];
    ExecConcat(v, cs[..3] + [cs[3]], [cs[4]]);
    ExecConcat(v, cs[..3], [cs[3]]);
    Unfold3(v, cs[..3]);
    var w := ExecAll(v, cs[..3]);
    ExecOne(w, cs[3]);
    ExecOne(Exec(w, cs[3]), cs[4]);
  }

  lemma SampleLeavesDirectory()
    ensures var v := Volume(map["a/b/f" := ""], {"a/b", "a"}, Some("a/b/f\n"), None, false);
            Sync(v, []).dirs == {} && Sync(Interrupted(v, [], Cut(3, None)), []).dirs != {}
  {
    SampleVolume();
    RestartLeavesDirectory(Volume(map["a/b/f" := ""], {"a/b", "a"}, Some("a/b/f\n"), None, false), "a/b/f");
  }

  /** There are such volumes. */
  lemma SampleVolume()
    ensures var v := Volume(map["a/b/f" := ""], {"a/b", "a"}, Some("a/b/f\n"), None, false);
            TwoDown(v, "a/b/f") && v.dirs == {Dirname("a/b/f"), Dirname(Dirname("a/b/f"))}
  {
    assert "a/b/f"[..4] == "a/b/" && "a/b/f"[..3] == "a/b";
    assert "a/b"[..2] == "a/" && "a/b"[..1] == "a" && "a"[..0] == "";
    assert LastSlash("a/b/") == 3 && LastSlash("a/") == 1;
    assert LastSlash("a/b/f") == 3 && LastSlash("") == -1;
    assert Dirname("a/b/f") == "a/b" && Dirname("a/b") == "a";
    SampleManifest();
  }

  lemma SampleManifest()
    ensures Lines("a/b/f\n") == ["a/b/f"]
  {
    var paths := ["a/b/f"];
    assert paths[1..] == [] && Print(paths[1..]) == "";
    assert "a/b/f" + "\n" + "" == "a/b/f\n";
    assert Print(paths) == "a/b/f\n";
    ManifestRoundTrip(paths);
  }
}
